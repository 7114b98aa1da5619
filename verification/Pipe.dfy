/**
 Pipes (kernel/pipe.c).  Each method is what pipewrite or piperead does from acquiring the pipe's
 lock to releasing it or sleeping, so any interleaving of writers and readers is a sequence of calls.

 accepted and removed are histories: all bytes ever put into the ring and taken out of it.
 */
module Pipe {
  import opened Basics

  const PIPESIZE: int := 512

  /** 32-bit counters tell an empty ring and a full one from all others. */
  lemma RingTests(r: int, w: int)
    requires 0 <= r <= w <= r + PIPESIZE
    ensures r % TWO32 == w % TWO32 <==> w == r
    ensures w % TWO32 == (r % TWO32 + PIPESIZE) % TWO32 <==> w == r + PIPESIZE
  {
    WrapDistinguishes(r, w, TWO32);
    WrapDistinguishes(w, r + PIPESIZE, TWO32);
    SameRemainder(r + PIPESIZE, r % TWO32 + PIPESIZE, r / TWO32, TWO32);
  }

  lemma SlotsDiffer(r: int, p: int, w: int)
    requires 0 <= r <= p < w < r + PIPESIZE
    ensures p % PIPESIZE != w % PIPESIZE
  {
  }

  datatype WriteEnd = WroteAll | CopyinFailed | Asleep | Refused
  datatype ReadEnd = Took | CopyoutFailed | WaitsForData | Killed

  class Pipe {
    const data: array<int>
    var nread: int
    var nwrite: int
    var readopen: bool
    var writeopen: bool
    ghost var accepted: seq<int>
    ghost var removed: seq<int>

    /** First in, first out: what was removed is a prefix of what was accepted, and the ring holds the rest. */
    ghost predicate Valid()
      reads this, data
    {
      && data.Length == PIPESIZE
      && |removed| <= |accepted| <= |removed| + PIPESIZE
      && removed == accepted[..|removed|]
      && nread == |removed| % TWO32 && nwrite == |accepted| % TWO32
      && (forall p :: |removed| <= p < |accepted| ==> data[p % PIPESIZE] == accepted[p])
    }

    constructor ()
      ensures Valid() && accepted == [] && removed == [] && readopen && writeopen
    {
      data := new int[PIPESIZE];
      nread, nwrite, readopen, writeopen := 0, 0, true, true;
      accepted, removed := [], [];
    }

    /** pi->data[pi->nwrite++ % PIPESIZE] = ch, with room in the ring. */
    method Put(ch: int)
      requires Valid() && |accepted| < |removed| + PIPESIZE
      modifies data, `nwrite, `accepted
      ensures Valid() && accepted == old(accepted) + [ch]
    {
      ghost var w := |accepted|;
      WrapAgrees(w, PIPESIZE, TWO32 / PIPESIZE, TWO32);
      forall p | |removed| <= p < w ensures p % PIPESIZE != w % PIPESIZE {
        SlotsDiffer(|removed|, p, w);
      }
      data[nwrite % PIPESIZE] := ch;
      nwrite := (nwrite + 1) % TWO32;
      accepted := accepted + [ch];
    }

    /** ch = pi->data[pi->nread++ % PIPESIZE], with the ring not empty. */
    method Get() returns (ch: int)
      requires Valid() && |removed| < |accepted|
      modifies `nread, `removed
      ensures Valid() && ch == accepted[|old(removed)|] && removed == old(removed) + [ch]
    {
      WrapAgrees(|removed|, PIPESIZE, TWO32 / PIPESIZE, TWO32);
      ch := data[nread % PIPESIZE];
      nread := (nread + 1) % TWO32;
      ghost var n := |removed|;
      removed := removed + [ch];
      assert accepted[..n + 1] == accepted[..n] + [accepted[n]];
    }

    /**
     pipewrite from byte i of src on.  copyin works for the bytes below good, and the caller is found
     killed once it has written up to killAt.
     */
    method Write(src: seq<int>, i: int, good: int, killAt: int) returns (next: int, end: WriteEnd)
      requires Valid() && 0 <= i <= |src|
      modifies data, `nwrite, `accepted
      ensures Valid() && i <= next <= |src| && accepted == old(accepted) + src[i..next]
      ensures end.WroteAll? <==> next == |src|
      ensures end.Refused? <==> next < |src| && (!readopen || next >= killAt)
      ensures end.Asleep? <==> next < |src| && readopen && next < killAt && |accepted| == |removed| + PIPESIZE
      ensures end.CopyinFailed? ==> next >= good
    {
      next := i;
      assert src[i..i] == [];
      while next < |src|
        invariant Valid() && i <= next <= |src| && accepted == old(accepted) + src[i..next]
      {
        if !readopen || next >= killAt {
          return next, Refused;
        }
        RingTests(|removed|, |accepted|);
        if nwrite == (nread + PIPESIZE) % TWO32 {
          return next, Asleep;
        }
        if next >= good {
          return next, CopyinFailed;
        }
        Put(src[next]);
        assert src[i..next + 1] == src[i..next] + [src[next]];
        next := next + 1;
      }
      return next, WroteAll;
    }

    /**
     piperead for n bytes; copyout works for the bytes below good.  A byte whose copyout fails is
     removed all the same and lost.
     */
    method Read(n: int, good: int, killed: bool) returns (got: seq<int>, end: ReadEnd)
      requires Valid() && 0 <= n
      modifies `nread, `removed
      ensures Valid() && |got| <= n
      ensures end.WaitsForData? <==> old(removed) == accepted && writeopen && !killed
      ensures end.Killed? <==> old(removed) == accepted && writeopen && killed
      ensures end.WaitsForData? || end.Killed? ==> got == [] && removed == old(removed)
      ensures end.Took? ==> removed == old(removed) + got && (|got| == n || removed == accepted)
      ensures end.CopyoutFailed? ==>
        |got| < n && |got| >= good && |removed| == |old(removed)| + |got| + 1 && old(removed) + got <= removed
    {
      got := [];
      RingTests(|removed|, |accepted|);
      if nread == nwrite && writeopen {
        assert removed == accepted;
        return [], if killed then Killed else WaitsForData;
      }
      for i := 0 to n
        invariant Valid() && |got| == i && removed == old(removed) + got
      {
        RingTests(|removed|, |accepted|);
        if nread == nwrite {
          assert removed == accepted;
          return got, Took;
        }
        var ch := Get();
        if i >= good {
          return got, CopyoutFailed;
        }
        got := got + [ch];
      }
      return got, Took;
    }

    /** pipeclose; the pipe is freed when both ends are closed. */
    method Close(writable: bool) returns (freed: bool)
      requires Valid()
      modifies `readopen, `writeopen
      ensures Valid() && writeopen == (old(writeopen) && !writable) && readopen == (old(readopen) && writable)
      ensures freed <==> !readopen && !writeopen
    {
      if writable {
        writeopen := false;
      } else {
        readopen := false;
      }
      return !readopen && !writeopen;
    }
  }
}
