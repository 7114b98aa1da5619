/**
 The free list of the K&R allocator (user/umalloc.c) as a value.  Addresses count units of
 sizeof(Header); headers are two maps from a block's address to its link and size.

 fl is the free list in address order, starting with base; the links close it into a circle.
 live lists the blocks handed out.
 */
module Heap {
  import opened Basics

  predicate Has(m: map<int, int>, q: seq<int>) {
    forall i :: 0 <= i < |q| ==> q[i] in m
  }

  function Succ(fl: seq<int>, i: int): (a: int)
    requires 0 <= i < |fl|
  {
    if i + 1 < |fl| then fl[i + 1] else fl[0]
  }

  /** The links lead from each block to the next and from the last back to the first; but for block t's. */
  ghost predicate Links(fl: seq<int>, ptr: map<int, int>, t: int) {
    |fl| > 0 && Has(ptr, fl) && forall i {:trigger ptr[fl[i]]} :: 0 <= i < |fl| && i != t ==> ptr[fl[i]] == Succ(fl, i)
  }

  /** Sorted by address; each block ends strictly before the next begins, so blocks are disjoint and fully coalesced. */
  ghost predicate Spaced(fl: seq<int>, size: map<int, int>) {
    && |fl| > 0 && Has(size, fl) && size[fl[0]] == 0 && (forall i :: 1 <= i < |fl| ==> size[fl[i]] >= 1)
    && (forall i, j :: 0 <= i < j < |fl| ==> fl[i] + size[fl[i]] < fl[j])
  }

  ghost predicate Circle(fl: seq<int>, ptr: map<int, int>, size: map<int, int>) {
    Links(fl, ptr, -1) && Spaced(fl, size)
  }

  predicate Disjoint(a: int, n: int, b: int, m: int) {
    a + n <= b || b + m <= a
  }

  /** Blocks handed out overlap neither each other nor free blocks, and all end below top. */
  ghost predicate Apart(fl: seq<int>, live: seq<int>, size: map<int, int>, top: int) {
    && Has(size, fl) && Has(size, live) && |fl| > 0 && fl[0] < top
    && (forall i :: 0 <= i < |fl| ==> fl[i] + size[fl[i]] <= top)
    && (forall k :: 0 <= k < |live| ==> fl[0] < live[k] && size[live[k]] >= 1 && live[k] + size[live[k]] <= top)
    && (forall k, i :: 0 <= k < |live| && 1 <= i < |fl| ==> Disjoint(live[k], size[live[k]], fl[i], size[fl[i]]))
    && (forall k, m :: 0 <= k < m < |live| ==> Disjoint(live[k], size[live[k]], live[m], size[live[m]]))
  }

  /** The units of the blocks in q. */
  function Units(q: seq<int>, size: map<int, int>): (n: int)
    requires Has(size, q)
  {
    if q == [] then 0 else Units(q[..|q| - 1], size) + size[q[|q| - 1]]
  }

  lemma {:induction false} UnitsFrame(q: seq<int>, size: map<int, int>, size': map<int, int>)
    requires Has(size, q) && Has(size', q) && forall i :: 0 <= i < |q| ==> size'[q[i]] == size[q[i]]
    ensures Units(q, size') == Units(q, size)
  {
    if q != [] {
      UnitsFrame(q[..|q| - 1], size, size');
    }
  }

  lemma DropLast(q: seq<int>, r: seq<int>)
    requires r != []
    ensures (q + r)[..|q + r| - 1] == q + r[..|r| - 1] && (q + r)[|q + r| - 1] == r[|r| - 1]
  {
  }

  lemma {:induction false} UnitsConcat(q: seq<int>, r: seq<int>, size: map<int, int>)
    requires Has(size, q) && Has(size, r)
    ensures Has(size, q + r) && Units(q + r, size) == Units(q, size) + Units(r, size)
  {
    if r == [] {
      assert q + r == q;
    } else {
      UnitsConcat(q, r[..|r| - 1], size);
      DropLast(q, r);
    }
  }

  function With(q: seq<int>, k: int, a: int): (r: seq<int>)
    requires 0 <= k <= |q|
  {
    q[..k] + [a] + q[k..]
  }

  lemma WithoutIndex(q: seq<int>, k: int)
    requires 0 <= k < |q|
    ensures |Without(q, k)| == |q| - 1
    ensures forall i :: 0 <= i < |q| - 1 ==> Without(q, k)[i] == if i < k then q[i] else q[i + 1]
  {
  }

  lemma WithIndex(q: seq<int>, k: int, a: int)
    requires 0 <= k <= |q|
    ensures |With(q, k, a)| == |q| + 1
    ensures forall i :: 0 <= i < |q| + 1 ==> With(q, k, a)[i] == if i < k then q[i] else if i == k then a else q[i - 1]
  {
  }

  lemma UnitsWithout(q: seq<int>, k: int, size: map<int, int>)
    requires 0 <= k < |q| && Has(size, q)
    ensures Has(size, Without(q, k)) && Units(Without(q, k), size) == Units(q, size) - size[q[k]]
  {
    UnitsConcat(q[..k], q[k + 1..], size);
    UnitsConcat([q[k]], q[k + 1..], size);
    UnitsConcat(q[..k], [q[k]] + q[k + 1..], size);
    assert q == q[..k] + ([q[k]] + q[k + 1..]);
    assert Units([q[k]], size) == size[q[k]];
  }

  lemma UnitsWith(q: seq<int>, k: int, a: int, size: map<int, int>)
    requires 0 <= k <= |q| && Has(size, q) && a in size
    ensures Has(size, With(q, k, a)) && Units(With(q, k, a), size) == Units(q, size) + size[a]
  {
    var r := With(q, k, a);
    WithIndex(q, k, a);
    assert Has(size, r);
    UnitsWithout(r, k, size);
    assert Without(r, k) == q;
  }

  lemma UnitsUpdate(q: seq<int>, k: int, n: int, size: map<int, int>)
    requires 0 <= k < |q| && Has(size, q) && forall i :: 0 <= i < |q| && i != k ==> q[i] != q[k]
    ensures Has(size[q[k] := n], q) && Units(q, size[q[k] := n]) == Units(q, size) - size[q[k]] + n
  {
    var size' := size[q[k] := n];
    UnitsWithout(q, k, size);
    UnitsWithout(q, k, size');
    WithoutIndex(q, k);
    UnitsFrame(Without(q, k), size, size');
  }

  // ---------- giving a block back ----------

  /** Block bp belongs after element t of the free list. */
  ghost predicate Fits(fl: seq<int>, size: map<int, int>, t: int, bp: int) {
    && 0 <= t < |fl| && Has(size, fl) && bp in size && size[bp] >= 1 && fl[t] < bp && (t + 1 < |fl| ==> bp < fl[t + 1])
    && (forall i :: 1 <= i < |fl| ==> Disjoint(bp, size[bp], fl[i], size[fl[i]]))
  }

  /** Block bp lies between element t and the next, with a gap above. */
  ghost predicate Between(fl: seq<int>, size: map<int, int>, t: int, bp: int) {
    && 0 <= t < |fl| && Has(size, fl) && bp in size && size[bp] >= 1
    && fl[t] < bp && fl[t] + size[fl[t]] <= bp && (forall i :: t < i < |fl| ==> bp + size[bp] < fl[i])
  }

  lemma {:induction false} BelowFits(fl: seq<int>, size: map<int, int>, t: int, bp: int)
    requires Spaced(fl, size) && Fits(fl, size, t, bp)
    ensures fl[t] + size[fl[t]] <= bp && (t + 1 < |fl| ==> bp + size[bp] <= fl[t + 1]) && bp !in fl
  {
    if t > 0 {
      assert Disjoint(bp, size[bp], fl[t], size[fl[t]]);
    }
    if t + 1 < |fl| {
      assert Disjoint(bp, size[bp], fl[t + 1], size[fl[t + 1]]);
    }
    forall i | 0 <= i < |fl| ensures fl[i] != bp {
      if i < t {
        assert fl[i] + size[fl[i]] < fl[t];
      } else if i > t + 1 {
        assert fl[t + 1] + size[fl[t + 1]] < fl[i];
      }
    }
  }

  /** Element t + 1 drops out of the list. */
  lemma DropSpaced(fl: seq<int>, size: map<int, int>, k: int)
    requires Spaced(fl, size) && 1 <= k < |fl|
    ensures Spaced(Without(fl, k), size)
  {
    WithoutIndex(fl, k);
  }

  lemma DropLinks(fl: seq<int>, ptr: map<int, int>, t: int)
    requires Links(fl, ptr, -1) && 0 <= t && t + 1 < |fl|
    ensures Links(Without(fl, t + 1), ptr, t) && ptr[fl[t + 1]] == Succ(Without(fl, t + 1), t)
  {
    WithoutIndex(fl, t + 1);
  }

  lemma AddressesDistinct(fl: seq<int>, size: map<int, int>, t: int)
    requires Spaced(fl, size) && 0 <= t < |fl|
    ensures forall i :: 0 <= i < |fl| && i != t ==> fl[i] != fl[t]
    ensures t > 0 ==> fl[0] < fl[t]
  {
    forall i | 0 <= i < |fl| && i != t ensures fl[i] != fl[t] {
      if i < t {
        assert fl[i] + size[fl[i]] < fl[t];
      } else {
        assert fl[t] + size[fl[t]] < fl[i];
      }
    }
    assert t > 0 ==> fl[0] + size[fl[0]] < fl[t];
  }

  lemma SpacedElsewhere(fl: seq<int>, size: map<int, int>, bp: int, n: int)
    requires Spaced(fl, size) && bp !in fl
    ensures Spaced(fl, size[bp := n])
  {
    assert forall i :: 0 <= i < |fl| ==> fl[i] in fl;
    assert forall i :: 0 <= i < |fl| ==> size[bp := n][fl[i]] == size[fl[i]];
  }

  lemma LinksElsewhere(fl: seq<int>, ptr: map<int, int>, t: int, bp: int, x: int)
    requires Links(fl, ptr, t) && bp !in fl
    ensures Links(fl, ptr[bp := x], t)
  {
    assert forall i :: 0 <= i < |fl| ==> fl[i] in fl;
  }

  /** bp takes over the block above it: the links. */
  lemma UpLinks(fl: seq<int>, ptr: map<int, int>, t: int, bp: int)
    requires Links(fl, ptr, -1) && 0 <= t && t + 1 < |fl| && bp !in fl
    ensures var fl1, ptr1 := Without(fl, t + 1), ptr[bp := ptr[fl[t + 1]]];
      Links(fl1, ptr1, t) && ptr1[bp] == Succ(fl1, t)
  {
    DropLinks(fl, ptr, t);
    NotInWithout(fl, t + 1, bp);
    LinksElsewhere(Without(fl, t + 1), ptr, t, bp, ptr[fl[t + 1]]);
  }

  lemma NotInWithout(fl: seq<int>, k: int, bp: int)
    requires 0 <= k < |fl| && bp !in fl
    ensures bp !in Without(fl, k)
  {
  }

  /** The same: the sizes. */
  lemma UpSpaced(fl: seq<int>, size: map<int, int>, t: int, bp: int)
    requires Spaced(fl, size) && 0 <= t && t + 1 < |fl| && bp in size && bp !in fl
    ensures Spaced(Without(fl, t + 1), size[bp := size[bp] + size[fl[t + 1]]])
  {
    DropSpaced(fl, size, t + 1);
    NotInWithout(fl, t + 1, bp);
    SpacedElsewhere(Without(fl, t + 1), size, bp, size[bp] + size[fl[t + 1]]);
  }

  lemma UpBetween(fl: seq<int>, size: map<int, int>, t: int, bp: int)
    requires Spaced(fl, size) && 0 <= t && t + 1 < |fl| && bp in size && size[bp] >= 1 && bp !in fl
    requires fl[t] + size[fl[t]] <= bp
    requires bp + size[bp] == fl[t + 1] && fl[t] < bp
    ensures Between(Without(fl, t + 1), size[bp := size[bp] + size[fl[t + 1]]], t, bp)
  {
    var fl1 := Without(fl, t + 1);
    WithoutIndex(fl, t + 1);
    assert fl[t] in fl;
    forall i | t < i < |fl1| ensures bp + size[bp] + size[fl[t + 1]] < fl1[i] {
      assert fl[t + 1] + size[fl[t + 1]] < fl[i + 1];
    }
  }

  lemma ResizeSpaced(fl: seq<int>, size: map<int, int>, t: int, n: int)
    requires Spaced(fl, size) && 1 <= t < |fl| && n >= 1 && forall i :: t < i < |fl| ==> fl[t] + n < fl[i]
    ensures Spaced(fl, size[fl[t] := n])
  {
    AddressesDistinct(fl, size, t);
    assert forall i :: 0 <= i < |fl| ==> size[fl[t] := n][fl[i]] == if i == t then n else size[fl[i]];
  }

  lemma LowAdjacent(fl: seq<int>, ptr: map<int, int>, size: map<int, int>, t: int, bp: int)
    requires Links(fl, ptr, t) && Spaced(fl, size) && Between(fl, size, t, bp) && bp in ptr
    requires ptr[bp] == Succ(fl, t) && fl[t] + size[fl[t]] == bp
    ensures t > 0 && Circle(fl, ptr[fl[t] := ptr[bp]], size[fl[t] := size[fl[t]] + size[bp]])
  {
    AddressesDistinct(fl, size, t);
    ResizeSpaced(fl, size, t, size[fl[t]] + size[bp]);
  }

  lemma InsertLinks(fl: seq<int>, ptr: map<int, int>, t: int, bp: int)
    requires Links(fl, ptr, t) && 0 <= t < |fl| && bp in ptr && ptr[bp] == Succ(fl, t)
    requires forall i :: 0 <= i < |fl| && i != t ==> fl[i] != fl[t]
    requires bp !in fl
    ensures Links(With(fl, t + 1, bp), ptr[fl[t] := bp], -1)
  {
    WithIndex(fl, t + 1, bp);
  }

  lemma InsertSpaced(fl: seq<int>, size: map<int, int>, t: int, bp: int)
    requires Spaced(fl, size) && Between(fl, size, t, bp) && fl[t] + size[fl[t]] != bp
    ensures Spaced(With(fl, t + 1, bp), size) && bp !in fl
  {
    WithIndex(fl, t + 1, bp);
    forall i | 0 <= i < |fl| ensures i <= t ==> fl[i] + size[fl[i]] < bp {
      if i < t {
        assert fl[i] + size[fl[i]] < fl[t];
      }
    }
  }

  // ---------- blocks handed out ----------

  lemma LiveDistinct(fl: seq<int>, live: seq<int>, size: map<int, int>, top: int, k: int)
    requires Apart(fl, live, size, top) && Spaced(fl, size) && 0 <= k < |live|
    ensures live[k] !in fl && forall m :: 0 <= m < |live| && m != k ==> live[m] != live[k]
  {
    forall i | 0 <= i < |fl| ensures fl[i] != live[k] {
      if i > 0 {
        assert Disjoint(live[k], size[live[k]], fl[i], size[fl[i]]);
      }
    }
    forall m | 0 <= m < |live| && m != k ensures live[m] != live[k] {
      assert if m < k then Disjoint(live[m], size[live[m]], live[k], size[live[k]])
        else Disjoint(live[k], size[live[k]], live[m], size[live[m]]);
    }
  }

  lemma DropApart(fl: seq<int>, live: seq<int>, size: map<int, int>, top: int, k: int)
    requires Apart(fl, live, size, top) && 1 <= k < |fl|
    ensures Apart(Without(fl, k), live, size, top)
  {
    WithoutIndex(fl, k);
  }

  lemma ResizeApart(fl: seq<int>, live: seq<int>, size: map<int, int>, top: int, k: int, n: int)
    requires Spaced(fl, size) && Apart(fl, live, size, top) && 0 <= k < |live| && n >= 1 && live[k] + n <= top
    requires forall i :: 1 <= i < |fl| ==> Disjoint(live[k], n, fl[i], size[fl[i]])
    requires forall m :: 0 <= m < |live| && m != k ==> Disjoint(live[k], n, live[m], size[live[m]])
    ensures Apart(fl, live, size[live[k] := n], top)
  {
    LiveDistinct(fl, live, size, top, k);
    assert forall i :: 0 <= i < |fl| ==> fl[i] in fl && size[live[k] := n][fl[i]] == size[fl[i]];
    assert forall m :: 0 <= m < |live| ==> size[live[k] := n][live[m]] == if m == k then n else size[live[m]];
  }

  /** What is above live block k up to n units further is free block t + 1 and nothing else. */
  lemma UpClear(fl: seq<int>, live: seq<int>, size: map<int, int>, top: int, t: int, k: int, m: int)
    requires Spaced(fl, size) && Apart(fl, live, size, top) && 0 <= k < |live| && 0 <= t
    requires t + 1 < |fl| && live[k] + size[live[k]] == fl[t + 1]
    requires 0 <= m < |live| && m != k
    ensures Disjoint(live[k], size[live[k]] + size[fl[t + 1]], live[m], size[live[m]])
  {
    assert if m < k then Disjoint(live[m], size[live[m]], live[k], size[live[k]])
      else Disjoint(live[k], size[live[k]], live[m], size[live[m]]);
    assert Disjoint(live[m], size[live[m]], fl[t + 1], size[fl[t + 1]]);
  }

  lemma UpClearFree(fl: seq<int>, live: seq<int>, size: map<int, int>, top: int, t: int, k: int, i: int)
    requires Spaced(fl, size) && Apart(fl, live, size, top) && 0 <= k < |live| && 0 <= t
    requires t + 1 < |fl| && live[k] + size[live[k]] == fl[t + 1]
    requires 1 <= i < |fl| && i != t + 1
    ensures Disjoint(live[k], size[live[k]] + size[fl[t + 1]], fl[i], size[fl[i]])
  {
    assert Disjoint(live[k], size[live[k]], fl[i], size[fl[i]]);
    assert if i < t + 1 then fl[i] + size[fl[i]] < fl[t + 1] else fl[t + 1] + size[fl[t + 1]] < fl[i];
  }

  /** r is q without element k. */
  ghost predicate IsWithout(q: seq<int>, k: int, r: seq<int>) {
    0 <= k < |q| == |r| + 1 && forall i {:trigger r[i]} :: 0 <= i < |r| ==> r[i] == if i < k then q[i] else q[i + 1]
  }

  lemma UpClearAll(fl: seq<int>, live: seq<int>, size: map<int, int>, top: int, t: int, k: int, fl1: seq<int>)
    requires Spaced(fl, size) && Apart(fl, live, size, top) && 0 <= k < |live| && 0 <= t
    requires t + 1 < |fl| && live[k] + size[live[k]] == fl[t + 1]
    requires IsWithout(fl, t + 1, fl1) && Has(size, fl1)
    ensures forall i :: 1 <= i < |fl1| ==> Disjoint(live[k], size[live[k]] + size[fl[t + 1]], fl1[i], size[fl1[i]])
    ensures forall m :: 0 <= m < |live| && m != k ==>
      Disjoint(live[k], size[live[k]] + size[fl[t + 1]], live[m], size[live[m]])
  {
    forall i | 1 <= i < |fl1| ensures Disjoint(live[k], size[live[k]] + size[fl[t + 1]], fl1[i], size[fl1[i]]) {
      var x := if i < t + 1 then i else i + 1;
      assert fl1[i] == fl[x];
      UpClearFree(fl, live, size, top, t, k, x);
    }
    forall m | 0 <= m < |live| && m != k
      ensures Disjoint(live[k], size[live[k]] + size[fl[t + 1]], live[m], size[live[m]])
    {
      UpClear(fl, live, size, top, t, k, m);
    }
  }

  lemma DropsApart(fl: seq<int>, live: seq<int>, size: map<int, int>, top: int, k: int, fl1: seq<int>)
    requires Spaced(fl, size) && Apart(fl, live, size, top) && 1 <= k && IsWithout(fl, k, fl1)
    ensures Spaced(fl1, size) && Apart(fl1, live, size, top)
  {
  }

  lemma UpReady(fl: seq<int>, live: seq<int>, size: map<int, int>, top: int, t: int, k: int, fl1: seq<int>, n: int)
    requires Spaced(fl, size) && Apart(fl, live, size, top) && 0 <= k < |live| && 0 <= t
    requires t + 1 < |fl| && live[k] + size[live[k]] == fl[t + 1] && n == size[live[k]] + size[fl[t + 1]]
    requires IsWithout(fl, t + 1, fl1)
    ensures Spaced(fl1, size) && Apart(fl1, live, size, top) && n >= 1 && live[k] + n <= top
    ensures forall i :: 1 <= i < |fl1| ==> Disjoint(live[k], n, fl1[i], size[fl1[i]])
    ensures forall m :: 0 <= m < |live| && m != k ==> Disjoint(live[k], n, live[m], size[live[m]])
  {
    DropsApart(fl, live, size, top, t + 1, fl1);
    UpClearAll(fl, live, size, top, t, k, fl1);
  }

  /** A block handed out takes over the free block above it, leaving the free list fl1. */
  lemma UpApart(fl: seq<int>, live: seq<int>, size: map<int, int>, top: int, t: int, k: int, fl1: seq<int>, n: int)
    requires Spaced(fl, size) && Apart(fl, live, size, top) && 0 <= k < |live| && 0 <= t
    requires t + 1 < |fl| && live[k] + size[live[k]] == fl[t + 1] && n == size[live[k]] + size[fl[t + 1]]
    requires IsWithout(fl, t + 1, fl1)
    ensures Apart(fl1, live, size[live[k] := n], top)
  {
    UpReady(fl, live, size, top, t, k, fl1, n);
    ResizeApart(fl1, live, size, top, k, n);
  }

  lemma UnitsElsewhere(q: seq<int>, size: map<int, int>, bp: int, n: int)
    requires Has(size, q) && bp !in q
    ensures Has(size[bp := n], q) && Units(q, size[bp := n]) == Units(q, size)
  {
    assert forall i :: 0 <= i < |q| ==> q[i] in q;
    UnitsFrame(q, size, size[bp := n]);
  }

  /** Block t + 1 leaves fl and its units go to element k of live. */
  lemma UpUnits(fl: seq<int>, live: seq<int>, size: map<int, int>, t: int, k: int)
    requires Has(size, fl) && Has(size, live) && 0 <= k < |live| && 0 <= t && t + 1 < |fl|
    requires live[k] !in fl && forall m :: 0 <= m < |live| && m != k ==> live[m] != live[k]
    ensures var n := size[live[k]] + size[fl[t + 1]];
      var size1 := size[live[k] := n];
      && Has(size1, Without(fl, t + 1)) && Has(size1, live)
      && Units(Without(fl, t + 1), size1) + Units(live, size1) == Units(fl, size) + Units(live, size)
  {
    NotInWithout(fl, t + 1, live[k]);
    UnitsWithout(fl, t + 1, size);
    MoveUnits(Without(fl, t + 1), live, size, k, size[fl[t + 1]]);
  }

  /** Element k of live grows by n. */
  lemma MoveUnits(fl: seq<int>, live: seq<int>, size: map<int, int>, k: int, n: int)
    requires Has(size, fl) && Has(size, live) && 0 <= k < |live| && live[k] !in fl
    requires forall m :: 0 <= m < |live| && m != k ==> live[m] != live[k]
    ensures var size1 := size[live[k] := size[live[k]] + n];
      Has(size1, fl) && Has(size1, live) && Units(fl, size1) == Units(fl, size)
        && Units(live, size1) == Units(live, size) + n
  {
    UnitsElsewhere(fl, size, live[k], size[live[k]] + n);
    UnitsUpdate(live, k, size[live[k]] + n, size);
  }

  /** A block handed out becomes part of the free block below it. */
  lemma LowApart(fl: seq<int>, live: seq<int>, size: map<int, int>, top: int, t: int, k: int)
    requires Spaced(fl, size) && Apart(fl, live, size, top) && 0 <= k < |live| && 1 <= t < |fl|
    requires fl[t] + size[fl[t]] == live[k]
    ensures Apart(fl, Without(live, k), size[fl[t] := size[fl[t]] + size[live[k]]], top)
  {
    var live1, size1 := Without(live, k), size[fl[t] := size[fl[t]] + size[live[k]]];
    WithoutIndex(live, k);
    AddressesDistinct(fl, size, t);
    forall m | 0 <= m < |live| ensures live[m] != fl[t] {
      LiveDistinct(fl, live, size, top, m);
    }
    forall m, i | 0 <= m < |live1| && 1 <= i < |fl| ensures Disjoint(live1[m], size1[live1[m]], fl[i], size1[fl[i]]) {
      var x := if m < k then m else m + 1;
      assert Disjoint(live[x], size[live[x]], fl[i], size[fl[i]]);
      assert if x < k then Disjoint(live[x], size[live[x]], live[k], size[live[k]])
        else Disjoint(live[k], size[live[k]], live[x], size[live[x]]);
    }
    forall m, m' | 0 <= m < m' < |live1| ensures Disjoint(live1[m], size1[live1[m]], live1[m'], size1[live1[m']]) {
      var x, x' := if m < k then m else m + 1, if m' < k then m' else m' + 1;
      assert Disjoint(live[x], size[live[x]], live[x'], size[live[x']]);
    }
  }

  lemma LowUnits(fl: seq<int>, live: seq<int>, size: map<int, int>, top: int, t: int, k: int)
    requires Spaced(fl, size) && Apart(fl, live, size, top) && 0 <= k < |live| && 1 <= t < |fl|
    ensures var size1 := size[fl[t] := size[fl[t]] + size[live[k]]];
      && Has(size1, fl) && Has(size1, Without(live, k))
      && Units(fl, size1) + Units(Without(live, k), size1) == Units(fl, size) + Units(live, size)
  {
    var live1, size1 := Without(live, k), size[fl[t] := size[fl[t]] + size[live[k]]];
    WithoutIndex(live, k);
    AddressesDistinct(fl, size, t);
    forall m | 0 <= m < |live| ensures live[m] != fl[t] {
      LiveDistinct(fl, live, size, top, m);
    }
    UnitsUpdate(fl, t, size[fl[t]] + size[live[k]], size);
    UnitsWithout(live, k, size);
    UnitsFrame(live1, size, size1);
  }

  /** A block handed out becomes a free block of its own. */
  lemma InsertApart(fl: seq<int>, live: seq<int>, size: map<int, int>, top: int, t: int, k: int)
    requires Apart(fl, live, size, top) && 0 <= k < |live| && 0 <= t < |fl|
    ensures Apart(With(fl, t + 1, live[k]), Without(live, k), size, top)
  {
    var fl1, live1 := With(fl, t + 1, live[k]), Without(live, k);
    WithIndex(fl, t + 1, live[k]);
    WithoutIndex(live, k);
    forall m, i | 0 <= m < |live1| && 1 <= i < |fl1| ensures Disjoint(live1[m], size[live1[m]], fl1[i], size[fl1[i]]) {
      var x := if m < k then m else m + 1;
      if i == t + 1 {
        assert if x < k then Disjoint(live[x], size[live[x]], live[k], size[live[k]])
          else Disjoint(live[k], size[live[k]], live[x], size[live[x]]);
      } else {
        assert Disjoint(live[x], size[live[x]], fl[if i < t + 1 then i else i - 1],
          size[fl[if i < t + 1 then i else i - 1]]);
      }
    }
    forall m, m' | 0 <= m < m' < |live1| ensures Disjoint(live1[m], size[live1[m]], live1[m'], size[live1[m']]) {
      var x, x' := if m < k then m else m + 1, if m' < k then m' else m' + 1;
      assert Disjoint(live[x], size[live[x]], live[x'], size[live[x']]);
    }
  }

  // ---------- handing out a block ----------

  /** A new block among those handed out. */
  lemma AppendApart(fl: seq<int>, live: seq<int>, size: map<int, int>, top: int, a: int)
    requires Apart(fl, live, size, top) && a in size && fl[0] < a && size[a] >= 1 && a + size[a] <= top
    requires forall i :: 1 <= i < |fl| ==> Disjoint(a, size[a], fl[i], size[fl[i]])
    requires forall m :: 0 <= m < |live| ==> Disjoint(live[m], size[live[m]], a, size[a])
    ensures Apart(fl, live + [a], size, top)
  {
  }

  lemma AppendUnits(live: seq<int>, size: map<int, int>, a: int)
    requires Has(size, live) && a in size
    ensures Has(size, live + [a]) && Units(live + [a], size) == Units(live, size) + size[a]
  {
    assert (live + [a])[..|live|] == live;
  }

  /** malloc unlinks a block of the very size. */
  lemma UnlinkCircle(fl: seq<int>, ptr: map<int, int>, size: map<int, int>, i: int)
    requires Circle(fl, ptr, size) && 1 <= i < |fl|
    ensures Circle(Without(fl, i), ptr[fl[i - 1] := ptr[fl[i]]], size)
  {
    DropLinks(fl, ptr, i - 1);
    DropSpaced(fl, size, i);
    WithoutIndex(fl, i);
    AddressesDistinct(fl, size, i - 1);
  }

  lemma UnlinkApart(fl: seq<int>, live: seq<int>, size: map<int, int>, top: int, i: int)
    requires Spaced(fl, size) && Apart(fl, live, size, top) && 1 <= i < |fl|
    ensures Apart(Without(fl, i), live + [fl[i]], size, top)
    ensures Has(size, Without(fl, i)) && Has(size, live + [fl[i]])
    ensures Units(Without(fl, i), size) + Units(live + [fl[i]], size) == Units(fl, size) + Units(live, size)
  {
    DropApart(fl, live, size, top, i);
    WithoutIndex(fl, i);
    var fl1 := Without(fl, i);
    forall x | 1 <= x < |fl1| ensures Disjoint(fl[i], size[fl[i]], fl1[x], size[fl1[x]]) {
      assert if x < i then fl[x] + size[fl[x]] < fl[i] else fl[i] + size[fl[i]] < fl[x + 1];
    }
    assert fl[0] + size[fl[0]] < fl[i];
    AppendApart(fl1, live, size, top, fl[i]);
    UnitsWithout(fl, i, size);
    AppendUnits(live, size, fl[i]);
  }

  /** malloc cuts the tail off a larger block. */
  function SplitSize(size: map<int, int>, p: int, n: int): (r: map<int, int>)
    requires p in size
  {
    size[p := size[p] - n][p + size[p] - n := n]
  }

  lemma TailIsNew(fl: seq<int>, live: seq<int>, size: map<int, int>, top: int, i: int, n: int)
    requires Spaced(fl, size) && Apart(fl, live, size, top) && 1 <= i < |fl| && 1 <= n < size[fl[i]]
    ensures var a := fl[i] + size[fl[i]] - n; a !in fl && a !in live
  {
    var a := fl[i] + size[fl[i]] - n;
    forall x | 0 <= x < |fl| ensures fl[x] != a {
      assert x < i ==> fl[x] + size[fl[x]] < fl[i];
      assert x > i ==> fl[i] + size[fl[i]] < fl[x];
    }
    forall m | 0 <= m < |live| ensures live[m] != a {
      assert Disjoint(live[m], size[live[m]], fl[i], size[fl[i]]);
    }
  }

  lemma SplitSpaced(fl: seq<int>, live: seq<int>, size: map<int, int>, top: int, i: int, n: int)
    requires Spaced(fl, size) && Apart(fl, live, size, top) && 1 <= i < |fl| && 1 <= n < size[fl[i]]
    ensures Spaced(fl, SplitSize(size, fl[i], n))
  {
    TailIsNew(fl, live, size, top, i, n);
    forall x | i < x < |fl| ensures fl[i] + (size[fl[i]] - n) < fl[x] {
      assert fl[i] + size[fl[i]] < fl[x];
    }
    ResizeSpaced(fl, size, i, size[fl[i]] - n);
    SpacedElsewhere(fl, size[fl[i] := size[fl[i]] - n], fl[i] + size[fl[i]] - n, n);
  }

  /** A free block shrinks. */
  lemma ShrinkApart(fl: seq<int>, live: seq<int>, size: map<int, int>, top: int, i: int, n: int)
    requires Spaced(fl, size) && Apart(fl, live, size, top) && 1 <= i < |fl| && 0 <= n <= size[fl[i]]
    ensures Apart(fl, live, size[fl[i] := n], top)
  {
    AddressesDistinct(fl, size, i);
    forall m | 0 <= m < |live| ensures live[m] != fl[i] {
      LiveDistinct(fl, live, size, top, m);
    }
    assert forall x :: 0 <= x < |fl| ==> size[fl[i] := n][fl[x]] == if x == i then n else size[fl[x]];
  }

  /** A header that no block uses may be written. */
  lemma ElsewhereApart(fl: seq<int>, live: seq<int>, size: map<int, int>, top: int, a: int, n: int)
    requires Apart(fl, live, size, top) && a !in fl && a !in live
    ensures Apart(fl, live, size[a := n], top)
  {
    assert forall x :: 0 <= x < |fl| ==> fl[x] in fl && size[a := n][fl[x]] == size[fl[x]];
    assert forall m :: 0 <= m < |live| ==> live[m] in live && size[a := n][live[m]] == size[live[m]];
  }

  lemma SplitApart(fl: seq<int>, live: seq<int>, size: map<int, int>, top: int, i: int, n: int)
    requires Spaced(fl, size) && Apart(fl, live, size, top) && 1 <= i < |fl| && 1 <= n < size[fl[i]]
    ensures Apart(fl, live + [fl[i] + size[fl[i]] - n], SplitSize(size, fl[i], n), top)
  {
    var a, size1 := fl[i] + size[fl[i]] - n, SplitSize(size, fl[i], n);
    TailIsNew(fl, live, size, top, i, n);
    ShrinkApart(fl, live, size, top, i, size[fl[i]] - n);
    ElsewhereApart(fl, live, size[fl[i] := size[fl[i]] - n], top, a, n);
    TailClear(fl, live, size, top, i, n);
    AppendApart(fl, live, size1, top, a);
  }

  /** The tail cut off overlaps no other block. */
  lemma TailClear(fl: seq<int>, live: seq<int>, size: map<int, int>, top: int, i: int, n: int)
    requires Spaced(fl, size) && Apart(fl, live, size, top) && 1 <= i < |fl| && 1 <= n < size[fl[i]]
    ensures var a, size1 := fl[i] + size[fl[i]] - n, SplitSize(size, fl[i], n);
      && fl[0] < a && Has(size1, fl) && Has(size1, live)
      && (forall x :: 1 <= x < |fl| ==> Disjoint(a, n, fl[x], size1[fl[x]]))
      && (forall m :: 0 <= m < |live| ==> Disjoint(live[m], size1[live[m]], a, n))
  {
    var a, size1 := fl[i] + size[fl[i]] - n, SplitSize(size, fl[i], n);
    TailIsNew(fl, live, size, top, i, n);
    AddressesDistinct(fl, size, i);
    forall x | 1 <= x < |fl| ensures Disjoint(a, n, fl[x], size1[fl[x]]) {
      assert fl[x] in fl;
      assert if x < i then fl[x] + size[fl[x]] < fl[i] else x > i ==> fl[i] + size[fl[i]] < fl[x];
    }
    forall m | 0 <= m < |live| ensures Disjoint(live[m], size1[live[m]], a, n) {
      assert live[m] in live;
      LiveDistinct(fl, live, size, top, m);
      assert Disjoint(live[m], size[live[m]], fl[i], size[fl[i]]);
    }
  }

  lemma SplitUnits(fl: seq<int>, live: seq<int>, size: map<int, int>, top: int, i: int, n: int)
    requires Spaced(fl, size) && Apart(fl, live, size, top) && 1 <= i < |fl| && 1 <= n < size[fl[i]]
    ensures var a, size1 := fl[i] + size[fl[i]] - n, SplitSize(size, fl[i], n);
      && Has(size1, fl) && Has(size1, live + [a])
      && Units(fl, size1) + Units(live + [a], size1) == Units(fl, size) + Units(live, size)
  {
    var a, size1 := fl[i] + size[fl[i]] - n, SplitSize(size, fl[i], n);
    TailIsNew(fl, live, size, top, i, n);
    AddressesDistinct(fl, size, i);
    forall m | 0 <= m < |live| ensures live[m] != fl[i] && live[m] != a {
      LiveDistinct(fl, live, size, top, m);
    }
    assert forall x :: 0 <= x < |fl| ==> fl[x] in fl;
    UnitsUpdate(fl, i, size[fl[i]] - n, size);
    UnitsFrame(fl, size[fl[i] := size[fl[i]] - n], size1);
    UnitsFrame(live, size, size1);
    AppendUnits(live, size1, a);
  }
}
