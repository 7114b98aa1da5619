/**
 kernel/fs.c and the chunking loop of kernel/file.c as code, over the disk as the buffer
 cache shows it.

 log is history: what was handed to log_write since the operation began.  Copying to or
 from the caller's memory can fail at any chunk; one chunk is all or nothing.
 */
module FileSystem {
  import opened Basics
  import opened Blocks
  import opened Bitmap
  import opened Ownership
  import opened FileContents
  import opened Seals

  const IPB: nat := 16               // inodes per block
  const CHUNK: nat := 3072           // ((MAXOPBLOCKS-1-1-2) / 2) * BSIZE

  lemma BitPosition(b: nat, bi: nat)
    requires b % BPB == 0 && bi < BPB
    ensures (b + bi) / BPB == b / BPB && (b + bi) % BPB == bi
  {
  }

  /** Every inode has its address slots and a size that they can map. */
  ghost predicate Files(inodes: seq<Inode>) {
    forall i :: 0 <= i < |inodes| ==> |inodes[i].addrs| == NDIRECT + 1 && 0 <= inodes[i].size <= MAXBYTES
  }

  ghost predicate InOrder(blocks: seq<Block>, inodes: seq<Inode>, owner: map<int, Ref>, sb: Super) {
    Owned(blocks, inodes, owner, sb) && NoHoles(blocks, inodes)
  }

  predicate OrderKey(z: int, blocks: seq<Block>, inodes: seq<Inode>, owner: map<int, Ref>) {
    true
  }

  ghost function Order(blocks: seq<Block>, inodes: seq<Inode>, owner: map<int, Ref>, sb: Super): (r: Verdict) {
    if forall z {:trigger OrderKey(z, blocks, inodes, owner)} :: OrderKey(z, blocks, inodes, owner) ==>
      InOrder(blocks, inodes, owner, sb) then Sound else Broken
  }

  lemma OpenOrder(blocks: seq<Block>, inodes: seq<Inode>, owner: map<int, Ref>, sb: Super)
    requires Order(blocks, inodes, owner, sb).Sound?
    ensures InOrder(blocks, inodes, owner, sb) && Files(inodes)
  {
    assert OrderKey(0, blocks, inodes, owner);
  }

  /**
   What an operation has handed to log_write: all those blocks, and those that had been logged
   already when it called log_write, whichever call that was.
   */
  datatype OpLog = OpLog(all: set<int>, early: set<int>)

  const NothingLogged: OpLog := OpLog({}, {})

  function LogWrite(l: OpLog, b: int): (r: OpLog) {
    OpLog(l.all + {b}, l.early + l.all)
  }

  predicate Grows(l0: OpLog, l1: OpLog) {
    l0.all <= l1.all && l1.early <= l0.early + l1.all
  }

  /** No more blocks than an operation may log, and at every log_write at least one was still to spare. */
  predicate WithinBudget(l: OpLog) {
    |l.all| <= MAXOPBLOCKS && |l.early| < MAXOPBLOCKS
  }

  class FileSystem {
    const sb: Super
    var blocks: seq<Block>
    var inodes: seq<Inode>          // the in-memory inodes
    var dinodes: seq<Inode>         // what iupdate last stored of each
    ghost var owner: map<int, Ref>
    ghost var log: OpLog

    /** What holds between operations. */
    ghost predicate Valid()
      reads this
    {
      Files(inodes) && |dinodes| == |inodes| && Order(blocks, inodes, owner, sb).Sound?
    }

    /** balloc's scan over the bitmap blocks: the first block whose bit is clear, or sb.size. */
    method FindFree() returns (r: int)
      requires Shape(blocks, sb)
      ensures 0 <= r <= sb.size
      ensures r < sb.size ==> !InUse(blocks, sb, r)
      ensures forall c :: 0 <= c < r ==> InUse(blocks, sb, c)
    {
      var b := 0;
      while b < sb.size
        invariant 0 <= b && b % BPB == 0
        invariant forall c :: 0 <= c < b && c < sb.size ==> InUse(blocks, sb, c)
      {
        var bi := 0;
        while bi < BPB && b + bi < sb.size
          invariant 0 <= bi <= BPB
          invariant forall c :: 0 <= c < b + bi && c < sb.size ==> InUse(blocks, sb, c)
        {
          BitPosition(b, bi);
          MarkBitAt(blocks, sb, b + bi, true, b + bi);
          if !GetBit(blocks[BBlock(sb, b)], bi) {
            return b + bi;
          }
          assert InUse(blocks, sb, b + bi);
          bi := bi + 1;
        }
        b := b + BPB;
      }
      return sb.size;
    }

    /** balloc: the lowest free block, marked and zeroed, or 0 when every block is in use. */
    method Balloc() returns (r: int)
      requires Owned(blocks, inodes, owner, sb)
      modifies `blocks, `log
      ensures r == 0 ==> blocks == old(blocks) && log == old(log) && forall b :: 0 <= b < sb.size ==> b in owner
      ensures r != 0 ==>
        && sb.datastart <= r < sb.size && r !in owner && (forall b :: 0 <= b < r ==> b in owner)
        && 0 <= BBlock(sb, r) < |old(blocks)| && HasBit(old(blocks)[BBlock(sb, r)], r % BPB)
        && blocks == Alloc(old(blocks), sb, r)
        && log == LogWrite(LogWrite(old(log), BBlock(sb, r)), r)
    {
      r := FindFree();
      if r == sb.size {
        return 0;
      }
      MarkBitAt(blocks, sb, r, true, r);
      blocks := MarkBit(blocks, sb, r, true);
      log := LogWrite(log, BBlock(sb, r));
      blocks := blocks[r := ZeroBlock()];
      log := LogWrite(log, r);
    }

    /** bfree: clear the block's bit; false is the "freeing free block" panic. */
    method Bfree(b: int) returns (ok: bool)
      requires Shape(blocks, sb) && 0 <= b < sb.size
      modifies `blocks, `log
      ensures 0 <= BBlock(sb, b) < |old(blocks)| && HasBit(old(blocks)[BBlock(sb, b)], b % BPB)
      ensures ok <==> InUse(old(blocks), sb, b)
      ensures blocks == if ok then MarkBit(old(blocks), sb, b, false) else old(blocks)
      ensures log == if ok then LogWrite(old(log), BBlock(sb, b)) else old(log)
    {
      MarkBitAt(blocks, sb, b, false, b);
      if !GetBit(blocks[BBlock(sb, b)], b % BPB) {
        return false;
      }
      blocks := MarkBit(blocks, sb, b, false);
      log := LogWrite(log, BBlock(sb, b));
      return true;
    }

    /** The inode's blocks as bmap sees them. */
    ghost function Where(i: int, bn: int): (b: int)
      requires 0 <= i < |inodes| && |inodes[i].addrs| == NDIRECT + 1
      reads this
    {
      BlockOf(blocks, inodes[i], bn)
    }

    ghost predicate Ready(i: int)
      reads this
    {
      Owned(blocks, inodes, owner, sb) && 0 <= i < |inodes|
    }

    /** bmap of a direct block.  maps collects the bitmap blocks it logs. */
    method MapDirect(i: int, bn: int) returns (addr: int, ghost maps: set<int>)
      requires Ready(i) && 0 <= bn < NDIRECT
      modifies `blocks, `inodes, `owner, `log
      ensures Ready(i) && Kept(old(blocks), old(inodes), blocks, inodes)
      ensures addr == Where(i, bn) && (addr == 0 ==> DiskFull(owner, sb.size))
      ensures old(Where(i, bn)) != 0 ==> blocks == old(blocks) && inodes == old(inodes) && owner == old(owner)
      ensures inodes[i].addrs[NDIRECT] == old(inodes)[i].addrs[NDIRECT]
      ensures |maps| <= (if old(Where(i, bn)) != 0 then 0 else 1)
      ensures log.all <= old(log).all + maps + NonZero(addr)
      ensures Grows(old(log), log) && (old(Where(i, bn)) != 0 ==> log == old(log))
    {
      addr, maps := inodes[i].addrs[bn], {};
      if addr == 0 {
        addr := Balloc();
        if addr == 0 {
          return;
        }
        TakeDirect(old(blocks), inodes, owner, sb, addr, i, bn);
        inodes := SetAddr(inodes, i, bn, addr);
        owner := owner[addr := Data(i, bn)];
        maps := {BBlock(sb, addr)};
      }
    }

    /** bmap's first half for an indirect block: the table, allocated if the inode has none. */
    method MapTable(i: int) returns (t: int, ghost maps: set<int>)
      requires Ready(i)
      modifies `blocks, `inodes, `owner, `log
      ensures Ready(i) && Kept(old(blocks), old(inodes), blocks, inodes)
      ensures t == inodes[i].addrs[NDIRECT] && (t == 0 ==> DiskFull(owner, sb.size))
      ensures forall n :: 0 <= n < MAXFILE ==> Where(i, n) == old(Where(i, n))
      ensures old(inodes)[i].addrs[NDIRECT] != 0 ==>
        blocks == old(blocks) && inodes == old(inodes) && owner == old(owner)
      ensures |maps| <= (if old(inodes)[i].addrs[NDIRECT] == 0 && t != 0 then 1 else 0)
      ensures log.all <= old(log).all + maps + NonZero(t)
      ensures Grows(old(log), log) && (old(inodes)[i].addrs[NDIRECT] != 0 ==> log == old(log))
    {
      t, maps := inodes[i].addrs[NDIRECT], {};
      if t == 0 {
        t := Balloc();
        if t == 0 {
          return;
        }
        TakeTable(old(blocks), inodes, owner, sb, t, i);
        inodes := SetAddr(inodes, i, NDIRECT, t);
        owner := owner[t := Table(i)];
        maps := {BBlock(sb, t)};
      }
    }

    /** bmap's second half for an indirect block: the table's j-th entry. */
    method MapEntry(i: int, j: int) returns (addr: int, ghost maps: set<int>)
      requires Ready(i) && 0 <= j < WORDS && inodes[i].addrs[NDIRECT] != 0
      modifies `blocks, `owner, `log
      ensures Ready(i) && Kept(old(blocks), inodes, blocks, inodes)
      ensures addr == Where(i, NDIRECT + j) && (addr == 0 ==> DiskFull(owner, sb.size))
      ensures old(Where(i, NDIRECT + j)) != 0 ==> blocks == old(blocks) && owner == old(owner)
      ensures |maps| <= (if old(Where(i, NDIRECT + j)) != 0 then 0 else 1)
      ensures log.all <= old(log).all + maps + NonZero(addr) + {inodes[i].addrs[NDIRECT]}
      ensures Grows(old(log), log) && (old(Where(i, NDIRECT + j)) != 0 ==> log == old(log))
    {
      var t := inodes[i].addrs[NDIRECT];
      TableIsOwned(blocks, inodes, owner, sb, -1, 0, i);
      assert Sized(blocks[t]);
      addr, maps := GetWord(blocks[t], j), {};
      if addr == 0 {
        addr := Balloc();
        if addr != 0 {
          TakeEntry(old(blocks), inodes, owner, sb, addr, i, j);
          blocks := SetEntry(blocks, t, j, addr);
          owner := owner[addr := Data(i, NDIRECT + j)];
          maps := {BBlock(sb, addr)};
          log := LogWrite(log, t);
        }
      }
    }

    /**
     bmap: the block that holds block bn of the file, allocated if need be; 0 when the disk is
     full; inRange is false exactly when bmap would panic.
     */
    method Bmap(i: int, bn: int) returns (addr: int, inRange: bool, ghost maps: set<int>)
      requires Ready(i) && 0 <= bn
      modifies `blocks, `inodes, `owner, `log
      ensures Ready(i) && Kept(old(blocks), old(inodes), blocks, inodes)
      ensures inRange <==> bn < MAXFILE
      ensures addr == (if inRange then Where(i, bn) else 0)
      ensures (inRange && addr == 0 ==> DiskFull(owner, sb.size))
      ensures inRange && old(Where(i, bn)) != 0 ==>
        blocks == old(blocks) && inodes == old(inodes) && owner == old(owner) && log == old(log)
      ensures |maps| <= (if inRange && old(Where(i, bn)) != 0 then 0 else 1)
                        + (if old(inodes)[i].addrs[NDIRECT] == 0 && inodes[i].addrs[NDIRECT] != 0 then 1 else 0)
      ensures old(inodes)[i].addrs[NDIRECT] != 0 ==> inodes[i].addrs[NDIRECT] == old(inodes)[i].addrs[NDIRECT]
      ensures log.all <= old(log).all + maps + NonZero(addr) + NonZero(inodes[i].addrs[NDIRECT])
      ensures Grows(old(log), log)
    {
      if bn < NDIRECT {
        addr, maps := MapDirect(i, bn);
        return addr, true, maps;
      }
      if bn - NDIRECT < WORDS {
        var t, tableMaps := MapTable(i);
        if t == 0 {
          return 0, true, tableMaps;
        }
        ghost var b1, in1 := blocks, inodes;
        addr, maps := MapEntry(i, bn - NDIRECT);
        KeptTrans(old(blocks), old(inodes), b1, in1, blocks, inodes);
        return addr, true, maps + tableMaps;
      }
      KeptSelf(blocks, inodes);
      return 0, false, {};
    }

    /** iupdate: store the in-memory inode in its disk block. */
    method Iupdate(i: int)
      requires 0 <= i < |inodes| && |dinodes| == |inodes|
      modifies `dinodes, `log
      ensures dinodes == old(dinodes)[i := inodes[i]]
      ensures log == LogWrite(old(log), i / IPB + sb.inodestart)
    {
      dinodes := dinodes[i := inodes[i]];
      log := LogWrite(log, i / IPB + sb.inodestart);
    }

    /** The body of writei's loop: find the block, copy one chunk into it if either_copyin can, log it. */
    method WriteOne(i: int, off: int, data: seq<int>, readable: bool)
        returns (done: bool, addr: int, ghost maps: set<int>)
      requires Ready(i) && 0 <= off < MAXBYTES && off % BSIZE + |data| <= BSIZE && AreBytes(data)
      modifies `blocks, `inodes, `owner, `log
      ensures Ready(i) && |inodes| == |old(inodes)|
      ensures Stored(old(blocks), old(inodes), blocks, inodes, i, off, if done then data else [])
      ensures done ==> IsMapped(blocks, inodes[i], off / BSIZE)
      ensures !done ==> !readable || DiskFull(owner, sb.size)
      ensures |maps| <= (if old(Where(i, off / BSIZE)) != 0 then 0 else 1)
                        + (if old(inodes)[i].addrs[NDIRECT] == 0 && inodes[i].addrs[NDIRECT] != 0 then 1 else 0)
      ensures old(inodes)[i].addrs[NDIRECT] != 0 ==> inodes[i].addrs[NDIRECT] == old(inodes)[i].addrs[NDIRECT]
      ensures log.all <= old(log).all + maps + NonZero(addr) + NonZero(inodes[i].addrs[NDIRECT])
      ensures Grows(old(log), log)
    {
      var inRange;
      addr, inRange, maps := Bmap(i, off / BSIZE);
      assert inRange;
      ghost var b1 := blocks;
      if addr == 0 {
        KeptIsStored(old(blocks), old(inodes), blocks, inodes, i, off);
        return false, addr, maps;
      }
      if !readable {
        KeptIsStored(old(blocks), old(inodes), blocks, inodes, i, off);
        return false, addr, maps;
      }
      MappedIsData(blocks, inodes, owner, sb, i, off / BSIZE);
      MapThenStore(old(blocks), old(inodes), b1, inodes, owner, sb, i, off, data);
      blocks := blocks[addr := Splice(blocks[addr], off % BSIZE, data)];
      log := LogWrite(log, addr);
      return true, addr, maps;
    }

    /** One pass of writei's loop, on the m source bytes after the first tot. */
    method WriteNext(i: int, off: int, src: seq<int>, tot: int, m: int, readable: bool, ghost b0: seq<Block>,
        ghost in0: seq<Inode>)
      returns (done: bool, addr: int, ghost maps: set<int>)
      requires Midway(blocks, inodes, owner, sb, i, off, src, tot, b0, in0).Sound? && 0 <= i < |inodes|
      requires |inodes[i].addrs| == NDIRECT + 1
      requires 0 <= off && 0 <= tot < tot + m <= |src| && off + |src| <= MAXBYTES && AreBytes(src)
      requires (off + tot) % BSIZE + m <= BSIZE
      modifies `blocks, `inodes, `owner, `log
      ensures done ==> Midway(blocks, inodes, owner, sb, i, off, src, tot + m, b0, in0).Sound?
      ensures !done ==>
        Midway(blocks, inodes, owner, sb, i, off, src, tot, b0, in0).Sound? && (!readable || DiskFull(owner, sb.size))
      ensures 0 <= i < |inodes| && |inodes[i].addrs| == NDIRECT + 1
      ensures |maps| <= (if (off + tot) % BSIZE != 0 then 0 else 1) + Fresh(old(inodes)[i], inodes[i])
      ensures old(inodes)[i].addrs[NDIRECT] != 0 ==> inodes[i].addrs[NDIRECT] == old(inodes)[i].addrs[NDIRECT]
      ensures log.all <= old(log).all + maps + NonZero(addr) + NonZero(inodes[i].addrs[NDIRECT])
      ensures Grows(old(log), log)
    {
      OpenMidway(blocks, inodes, owner, sb, i, off, src, tot, b0, in0);
      FirstBlockMapped(blocks, inodes, i, off + tot);
      var data := src[tot..tot+m];
      done, addr, maps := WriteOne(i, off + tot, data, readable);
      MidwayStep(b0, in0, old(blocks), old(inodes), old(owner), blocks, inodes, owner, sb, i, off, src, tot, m,
        data, done);
    }

    /**
     writei's loop.  It stops early only when the disk is full or the source cannot be read beyond
     its first good bytes.  data and maps are the data and bitmap blocks it logs.
     */
    method WriteLoop(i: int, off: int, src: seq<int>, good: int)
        returns (tot: int, ghost data: set<int>, ghost maps: set<int>)
      requires Midway(blocks, inodes, owner, sb, i, off, src, 0, blocks, inodes).Sound? && 0 <= i < |inodes|
      requires |inodes[i].addrs| == NDIRECT + 1
      requires 0 <= off && off + |src| <= MAXBYTES && AreBytes(src)
      modifies `blocks, `inodes, `owner, `log
      ensures 0 <= tot <= |src| && Midway(blocks, inodes, owner, sb, i, off, src, tot, old(blocks), old(inodes)).Sound?
      ensures 0 <= i < |inodes| && |inodes[i].addrs| == NDIRECT + 1
      ensures tot < |src| ==> tot + ChunkLength(off + tot, |src| - tot) > good || DiskFull(owner, sb.size)
      ensures Spent(off, |src|, old(inodes)[i], inodes[i], data, maps, old(log).all, log.all) && Grows(old(log), log)
    {
      tot, data, maps := 0, {}, {};
      ghost var ip0 := inodes[i];
      while tot < |src|
        invariant 0 <= tot <= |src|
          && Midway(blocks, inodes, owner, sb, i, off, src, tot, old(blocks), old(inodes)).Sound?
        invariant 0 <= i < |inodes| && |inodes[i].addrs| == NDIRECT + 1
        invariant Budget(off, tot, |src|, ip0, inodes[i], data, maps, old(log).all, log.all).Sound?
          && Grows(old(log), log)
      {
        var m := ChunkLength(off + tot, |src| - tot);
        BudgetChunk(off, tot, |src|, ip0, inodes[i], data, maps, old(log).all, log.all);
        ghost var ip, l := inodes[i], log;
        var done, addr, newMaps := WriteNext(i, off, src, tot, m, tot + m <= good, old(blocks), old(inodes));
        BudgetStep(off, tot, |src|, ip0, ip, inodes[i], data, maps, NonZero(addr), newMaps, old(log).all, l.all,
          log.all);
        data, maps := data + NonZero(addr), maps + newMaps;
        if !done {
          return;
        }
        tot := tot + m;
      }
      BudgetSpent(off, |src|, ip0, inodes[i], data, maps, old(log).all, log.all);
    }

    ghost function File(i: int): (data: seq<int>)
      requires 0 <= i < |inodes| && |inodes[i].addrs| == NDIRECT + 1 && 0 <= inodes[i].size
      reads this
    {
      Contents(blocks, inodes[i])
    }

    ghost method StartWrite(i: int, off: int, src: seq<int>)
      requires Valid() && 0 <= i < |inodes| && 0 <= off <= inodes[i].size
      ensures Midway(blocks, inodes, owner, sb, i, off, src, 0, blocks, inodes).Sound?
        && |inodes[i].addrs| == NDIRECT + 1
    {
      OpenOrder(blocks, inodes, owner, sb);
      WrittenNothing(blocks, inodes, owner, sb, i, off, src);
      assert IsMidway(blocks, inodes, owner, sb, i, off, src, 0, blocks, inodes);
    }

    /** The end of writei: the file takes its new size and the inode goes to disk. */
    method FinishWrite(i: int, off: int, src: seq<int>, tot: int, ghost b0: seq<Block>, ghost in0: seq<Inode>)
      requires 0 <= tot <= |src| && Midway(blocks, inodes, owner, sb, i, off, src, tot, b0, in0).Sound?
        && 0 <= i < |inodes|
      requires |inodes[i].addrs| == NDIRECT + 1
      requires 0 <= i < |in0| && 0 <= off <= in0[i].size && off + tot <= MAXBYTES && |dinodes| == |in0|
      requires forall k :: 0 <= k < |in0| ==> 0 <= in0[k].size
      modifies `inodes, `dinodes, `log
      ensures Valid() && Wrote(b0, in0, blocks, inodes, i, off, src[..tot]).Sound?
      ensures 0 <= i < |inodes| && inodes[i].addrs == old(inodes)[i].addrs
      ensures dinodes == old(dinodes)[i := inodes[i]] && log == LogWrite(old(log), i / IPB + sb.inodestart)
    {
      OpenMidway(blocks, inodes, owner, sb, i, off, src, tot, b0, in0);
      FinishFacts(b0, in0, blocks, inodes, owner, sb, i, off, src, tot);
      inodes := inodes[i := Grown(inodes[i], off + tot)];
      Iupdate(i);
      assert InOrder(blocks, inodes, owner, sb) && FileWritten(b0, in0, blocks, inodes, i, off, src[..tot]);
    }

    /**
     writei: splice the source into the file.  -1 and no change when the write would start past
     the end or outgrow the largest file; otherwise the number of bytes written, fewer than asked
     for only if the disk is full or the next chunk of the source, readable up to good, cannot be read.
     */
    method Writei(i: int, off: int, src: seq<int>, good: int) returns (r: int)
      requires Valid() && 0 <= i < |inodes| && 0 <= off < TWO32 && |src| < TWO32 && AreBytes(src)
      modifies this
      ensures Valid()
      ensures r == -1 <==> off > old(inodes)[i].size || off + |src| > MAXBYTES
      ensures r == -1 ==> blocks == old(blocks) && inodes == old(inodes) && dinodes == old(dinodes) && log == old(log)
      ensures r != -1 ==> 0 <= r <= |src| && Wrote(old(blocks), old(inodes), blocks, inodes, i, off, src[..r]).Sound?
      ensures r != -1 ==> |inodes| == |old(inodes)| && dinodes == old(dinodes)[i := inodes[i]]
      ensures 0 <= r < |src| ==> r + ChunkLength(off + r, |src| - r) > good || DiskFull(owner, sb.size)
      ensures old(log) == NothingLogged && |src| <= CHUNK ==> WithinBudget(log)
    {
      if off > inodes[i].size || off + |src| >= TWO32 {
        return -1;
      }
      if off + |src| > MAXBYTES {
        return -1;
      }
      StartWrite(i, off, src);
      ghost var data, maps;
      r, data, maps := WriteLoop(i, off, src, good);
      ghost var l := log;
      FinishWrite(i, off, src, r, old(blocks), old(inodes));
      FitsInOneOperation(off, |src|, inodes[i], data, maps, old(log), l, i / IPB + sb.inodestart);
    }

    /** One pass of readi's loop: the m bytes at x, which all lie in one mapped block. */
    method ReadOne(i: int, x: int, m: int, ghost file: seq<int>) returns (data: seq<int>)
      requires Valid() && 0 <= i < |inodes| && 0 <= x < x + m <= inodes[i].size && x % BSIZE + m <= BSIZE
      requires file == File(i)
      modifies `blocks, `inodes, `owner, `log
      ensures blocks == old(blocks) && inodes == old(inodes) && owner == old(owner) && log == old(log)
      ensures |file| == inodes[i].size && data == file[x..x+m]
    {
      OpenOrder(blocks, inodes, owner, sb);
      assert x / BSIZE * BSIZE <= x && x / BSIZE < MAXFILE;
      assert Where(i, x / BSIZE) != 0;
      MappedIsData(blocks, inodes, owner, sb, i, x / BSIZE);
      var addr, inRange, maps := Bmap(i, x / BSIZE);
      assert inRange && addr != 0;
      assert Sized(blocks[addr]);
      ChunkOfContents(blocks, inodes[i], x, m);
      data := blocks[addr].bytes[x % BSIZE..x % BSIZE + m];
    }

    /** What readi returns when the caller's memory is writable: the slice [off, off+n) cut at the end of file. */
    ghost function Slice(i: int, off: int, n: int): (data: seq<int>)
      requires 0 <= i < |inodes| && |inodes[i].addrs| == NDIRECT + 1 && 0 <= inodes[i].size
      requires 0 <= off && 0 <= n
      reads this
    {
      if off > inodes[i].size || off + n >= TWO32 then []
      else File(i)[off..if off + n > inodes[i].size then inodes[i].size else off + n]
    }

    /** readi's loop over the count bytes at off, all of them below the file's size. */
    method ReadLoop(i: int, off: int, count: int, good: int) returns (ok: bool, data: seq<int>)
      requires Valid() && 0 <= i < |inodes| && 0 <= off && 0 <= count && off + count <= inodes[i].size
      modifies `blocks, `inodes, `owner, `log
      ensures blocks == old(blocks) && inodes == old(inodes) && owner == old(owner) && log == old(log)
      ensures ok <==> count == 0 || count <= good
      ensures ok ==> data == File(i)[off..off+count]
    {
      data := [];
      var tot := 0;
      ghost var file := File(i);
      while tot < count
        invariant 0 <= tot <= count && (tot > 0 ==> tot <= good)
        invariant blocks == old(blocks) && inodes == old(inodes) && owner == old(owner)
        invariant log == old(log)
        invariant |file| == inodes[i].size && data == file[off..off+tot]
      {
        var m := ChunkLength(off + tot, count - tot);
        ChunkFits(off + tot, count - tot);
        var chunk := ReadOne(i, off + tot, m, file);
        if tot + m > good {
          return false, data;
        }
        SliceMore(file, off, off + tot, off + tot + m);
        data := data + chunk;
        tot := tot + m;
      }
      return true, data;
    }

    /**
     readi: exactly the requested slice, or -1 if the caller's memory, writable up to good, ends
     before.  It never allocates a block, so it needs no transaction, and bmap's range check never fires.
     */
    method Readi(i: int, off: int, n: int, good: int) returns (r: int, data: seq<int>)
      requires Valid() && 0 <= i < |inodes| && 0 <= off < TWO32 && 0 <= n < TWO32
      modifies `blocks, `inodes, `owner, `log
      ensures blocks == old(blocks) && inodes == old(inodes) && owner == old(owner) && log == old(log)
      ensures if |Slice(i, off, n)| > 0 && |Slice(i, off, n)| > good then r == -1
        else r == |data| && data == Slice(i, off, n)
    {
      if off > inodes[i].size || off + n >= TWO32 {
        return 0, [];
      }
      var count := if off + n > inodes[i].size then inodes[i].size - off else n;
      var ok;
      ok, data := ReadLoop(i, off, count, good);
      return if ok then count else -1, data;
    }

    /** itrunc's first loop: free the direct blocks. */
    method TruncDirect(i: int) returns (ok: bool)
      requires Ready(i)
      modifies `blocks, `inodes, `owner, `log
      ensures ok && Ready(i) && SameData(old(blocks), blocks, sb)
      ensures OnlyChanges(old(inodes), inodes, i)
      ensures (forall n :: 0 <= n < NDIRECT ==> inodes[i].addrs[n] == 0)
      ensures inodes[i].addrs[NDIRECT] == old(inodes)[i].addrs[NDIRECT]
      ensures LessBlocks(old(owner), owner, i, NDIRECT) && MapsOnly(old(log), log, sb).Sound?
    {
      NoLogs(log, sb);
      for k := 0 to NDIRECT
        invariant Ready(i) && SameData(old(blocks), blocks, sb)
        invariant OnlyChanges(old(inodes), inodes, i) && (forall n :: 0 <= n < k ==> inodes[i].addrs[n] == 0)
        invariant inodes[i].addrs[NDIRECT] == old(inodes)[i].addrs[NDIRECT]
        invariant LessBlocks(old(owner), owner, i, k) && MapsOnly(old(log), log, sb).Sound?
      {
        ok := FreeDirect(i, k, old(owner), old(log));
      }
      ok := true;
    }

    method FreeDirect(i: int, k: int, ghost o0: map<int, Ref>, ghost l0: OpLog) returns (ok: bool)
      requires Ready(i) && 0 <= k < NDIRECT && LessBlocks(o0, owner, i, k) && MapsOnly(l0, log, sb).Sound?
      modifies `blocks, `inodes, `owner, `log
      ensures ok && Ready(i) && SameData(old(blocks), blocks, sb)
      ensures OnlyChanges(old(inodes), inodes, i) && inodes[i].addrs == old(inodes)[i].addrs[k := 0]
      ensures LessBlocks(o0, owner, i, k + 1) && MapsOnly(l0, log, sb).Sound?
    {
      ok := true;
      assert Where(i, k) == inodes[i].addrs[k];
      forall c | c in owner && owner[c] == Data(i, k) ensures c == inodes[i].addrs[k] && c != 0 {
        OnePlaceOneBlock(blocks, inodes, owner, sb, i, k, c);
      }
      var b := inodes[i].addrs[k];
      if b != 0 {
        DropDirect(blocks, inodes, owner, sb, i, k);
        LessOne(o0, owner, i, k, b);
        FreeLogs(l0, log, sb, b);
        ok := Bfree(b);
        inodes := SetAddr(inodes, i, k, 0);
        owner := owner - {b};
      } else {
        LessNone(o0, owner, i, k);
      }
    }

    ghost predicate InTable(i: int, j: int, o0: map<int, Ref>)
      reads this
    {
      Truncating(blocks, inodes, owner, sb, i, j) && 0 <= i < |inodes| && LessBlocks(o0, owner, i, NDIRECT + j)
    }

    method FreeEntry(i: int, j: int, ghost o0: map<int, Ref>, ghost l0: OpLog) returns (ok: bool)
      requires InTable(i, j, o0) && 0 <= j < WORDS && MapsOnly(l0, log, sb).Sound?
      modifies `blocks, `owner, `log
      ensures ok && InTable(i, j + 1, o0) && SameData(old(blocks), blocks, sb) && MapsOnly(l0, log, sb).Sound?
    {
      ok := true;
      forall c | c in owner && owner[c] == Data(i, NDIRECT + j)
        ensures c == Entry(blocks, inodes[i].addrs[NDIRECT], j) && c != 0
      {
        OnePlaceOneBlock(blocks, inodes, owner, sb, i, NDIRECT + j, c);
      }
      var b := Entry(blocks, inodes[i].addrs[NDIRECT], j);
      if b != 0 {
        DropEntry(blocks, inodes, owner, sb, i, j);
        LessOne(o0, owner, i, NDIRECT + j, b);
        FreeLogs(l0, log, sb, b);
        ok := Bfree(b);
        owner := owner - {b};
      } else {
        SkipEntry(blocks, inodes, owner, sb, i, j);
        LessNone(o0, owner, i, NDIRECT + j);
      }
    }

    /** itrunc's second loop: free the table's entries. */
    method FreeEntries(i: int, ghost o0: map<int, Ref>, ghost l0: OpLog) returns (ok: bool)
      requires InTable(i, 0, o0) && MapsOnly(l0, log, sb).Sound?
      modifies `blocks, `owner, `log
      ensures ok && InTable(i, WORDS, o0) && SameData(old(blocks), blocks, sb) && MapsOnly(l0, log, sb).Sound?
    {
      ok := true;
      for j := 0 to WORDS
        invariant ok && InTable(i, j, o0) && SameData(old(blocks), blocks, sb) && MapsOnly(l0, log, sb).Sound?
      {
        ok := FreeEntry(i, j, o0, l0);
      }
    }

    /** itrunc's second half: free the table's entries, then the table. */
    method TruncTable(i: int, ghost o0: map<int, Ref>, ghost l0: OpLog) returns (ok: bool)
      requires Ready(i) && LessBlocks(o0, owner, i, NDIRECT) && MapsOnly(l0, log, sb).Sound?
      modifies `blocks, `inodes, `owner, `log
      ensures ok && Ready(i) && SameData(old(blocks), blocks, sb)
      ensures OnlyChanges(old(inodes), inodes, i) && inodes[i].addrs == old(inodes)[i].addrs[NDIRECT := 0]
      ensures LessInode(o0, owner, i) && MapsOnly(l0, log, sb).Sound?
    {
      var t := inodes[i].addrs[NDIRECT];
      if t == 0 {
        NothingLeft(blocks, inodes, owner, sb, o0, i);
        return true;
      }
      ok := FreeEntries(i, o0, l0);
      DropTable(blocks, inodes, owner, sb, i);
      TableGone(blocks, inodes, owner, sb, o0, i, t);
      FreeLogs(l0, log, sb, t);
      ok := Bfree(t);
      inodes := SetAddr(inodes, i, NDIRECT, 0);
      owner := owner - {t};
    }

    /** Both halves of itrunc. */
    method TruncBlocks(i: int) returns (ok: bool)
      requires Valid() && 0 <= i < |inodes|
      modifies `blocks, `inodes, `owner, `log
      ensures ok && Cut(old(blocks), old(inodes), old(owner), blocks, inodes, owner, sb, i).Sound?
      ensures LessInode(old(owner), owner, i) && MapsOnly(old(log), log, sb).Sound?
      ensures |inodes| == |old(inodes)| && |inodes[i].addrs| == NDIRECT + 1
      ensures forall n :: 0 <= n <= NDIRECT ==> inodes[i].addrs[n] == 0
    {
      OpenOrder(blocks, inodes, owner, sb);
      ok := TruncDirect(i);
      ok := TruncTable(i, old(owner), old(log));
      assert IsCut(old(blocks), old(inodes), old(owner), blocks, inodes, owner, sb, i);
    }

    /**
     itrunc: the file becomes empty and exactly its blocks become free; the "freeing free block"
     panic is unreachable, and every other file is as it was.  It logs the inode and bitmap blocks
     only, which one operation may on a disk of up to (MAXOPBLOCKS - 1) * BPB blocks.
     */
    method Itrunc(i: int) returns (ok: bool)
      requires Valid() && 0 <= i < |inodes|
      modifies this
      ensures ok && Valid()
      ensures LessInode(old(owner), owner, i)
      ensures |inodes| == |old(inodes)| && inodes[i].size == 0 && dinodes == old(dinodes)[i := inodes[i]]
      ensures forall n :: 0 <= n <= NDIRECT ==> inodes[i].addrs[n] == 0
      ensures forall k :: 0 <= k < |inodes| && k != i ==> inodes[k] == old(inodes)[k] && File(k) == old(File(k))
      ensures old(log) == NothingLogged ==>
        |log.all| <= (sb.size - 1) / BPB + 2 && (sb.size <= (MAXOPBLOCKS - 1) * BPB ==> WithinBudget(log))
    {
      ok := TruncBlocks(i);
      CutFacts(old(blocks), old(inodes), old(owner), blocks, inodes, owner, sb, i);
      TruncateLogs(old(log), log, sb, i / IPB + sb.inodestart);
      inodes := inodes[i := inodes[i].(size := 0)];
      Iupdate(i);
    }

    /** One transaction of filewrite: up to CHUNK source bytes after those in part. */
    method WriteChunk(i: int, off: int, src: seq<int>, good: int, n: int, ghost b0: seq<Block>,
        ghost in0: seq<Inode>, ghost part: seq<int>)
      returns (r: int, n1: int, adv: int, ghost op: OpLog, ghost more: seq<int>)
      requires Valid() && 0 <= i < |inodes| && 0 <= off && off + |src| < TWO32 && AreBytes(src)
      requires 0 <= n < |src|
      requires part == src[..n] && Progress(b0, in0, blocks, inodes, i, off, part)
      modifies this
      ensures Valid() && 0 <= i < |inodes| && 0 < n1 && n + n1 <= |src| && -1 <= r <= n1
      ensures adv == if r > 0 then r else 0
      ensures more == src[..n + adv] && Progress(b0, in0, blocks, inodes, i, off, more)
      ensures r != n1 ==> off > in0[i].size || off + |src| > MAXBYTES || good < |src| || DiskFull(owner, sb.size)
      ensures WithinBudget(op)
    {
      n1 := if |src| - n > CHUNK then CHUNK else |src| - n;
      log := NothingLogged;
      ghost var b1, in1 := blocks, inodes;
      var piece := src[n..n + n1];
      if off <= in0[i].size {
        WroteReaches(b0, in0, b1, in1, i, off, part);
      }
      r := Writei(i, off + n, piece, good - n);
      op, adv := log, if r > 0 then r else 0;
      more := src[..n + adv];
      if r == -1 {
        more := part;
      } else {
        assert more == part + piece[..r];
        if off <= in0[i].size {
          WrittenMore(b0, in0, b1, in1, blocks, inodes, i, off, part, off + n, piece[..r], more);
        }
      }
    }

    /**
     filewrite on an inode: chunks of at most CHUNK bytes, each its own transaction.  It returns the
     byte count if everything was written and -1 otherwise; foff advances over the w bytes that
     were.  ops[k] is what the k-th transaction logged.
     */
    method Filewrite(i: int, off: int, src: seq<int>, good: int)
        returns (ret: int, foff: int, ghost w: int, ghost ops: seq<OpLog>)
      requires Valid() && 0 <= i < |inodes| && 0 <= off && off + |src| < TWO32 && AreBytes(src)
      modifies this
      ensures Valid()
      ensures 0 <= w <= |src| && foff == off + w
      ensures ret == if w == |src| then |src| else -1
      ensures w < |src| ==>
        off > old(inodes)[i].size || off + |src| > MAXBYTES || good < |src| || DiskFull(owner, sb.size)
      ensures Progress(old(blocks), old(inodes), blocks, inodes, i, off, src[..w])
      ensures forall k :: 0 <= k < |ops| ==> WithinBudget(ops[k])
    {
      foff, ops := off, [];
      var n := 0;
      ghost var part := src[..0];
      NothingWritten(blocks, inodes, i, off, part);
      while n < |src|
        invariant Valid() && 0 <= n <= |src| && foff == off + n && 0 <= i < |inodes| && part == src[..n]
        invariant Progress(old(blocks), old(inodes), blocks, inodes, i, off, part)
        invariant forall k :: 0 <= k < |ops| ==> WithinBudget(ops[k])
      {
        var r, n1, adv, op, more := WriteChunk(i, off, src, good, n, old(blocks), old(inodes), part);
        ops := ops + [op];
        foff, n, part := foff + adv, n + adv, more;
        if r != n1 {
          return -1, foff, n, ops;
        }
      }
      return |src|, foff, n, ops;
    }
  }

  /** The n numbers from lo. */
  function Range(lo: int, n: int): (r: set<int>)
    requires 0 <= n
    decreases n
  {
    if n == 0 then {} else Range(lo, n - 1) + {lo + n - 1}
  }

  lemma {:induction false} RangeFacts(lo: int, n: int, b: int)
    requires 0 <= n
    ensures |Range(lo, n)| <= n && (lo <= b < lo + n ==> b in Range(lo, n))
    decreases n
  {
    if n > 0 {
      RangeFacts(lo, n - 1, b);
    }
  }

  /** The bitmap blocks. */
  function Maps(sb: Super): (m: set<int>) {
    if sb.size > 0 then Range(sb.bmapstart, (sb.size - 1) / BPB + 1) else {}
  }

  ghost predicate LogsMaps(l0: OpLog, l1: OpLog, sb: Super) {
    Grows(l0, l1) && l1.all <= l0.all + Maps(sb)
  }

  predicate MapsKey(z: int, l0: OpLog, l1: OpLog) {
    true
  }

  /** Since l0 only bitmap blocks have been logged. */
  ghost function MapsOnly(l0: OpLog, l1: OpLog, sb: Super): (r: Verdict) {
    if forall z {:trigger MapsKey(z, l0, l1)} :: MapsKey(z, l0, l1) ==> LogsMaps(l0, l1, sb) then Sound else Broken
  }

  lemma NoLogs(l: OpLog, sb: Super)
    ensures MapsOnly(l, l, sb).Sound?
  {
    assert LogsMaps(l, l, sb);
  }

  lemma FreeLogs(l0: OpLog, l: OpLog, sb: Super, b: int)
    requires MapsOnly(l0, l, sb).Sound? && 0 <= b < sb.size
    ensures MapsOnly(l0, LogWrite(l, BBlock(sb, b)), sb).Sound?
  {
    assert MapsKey(0, l0, l);
    assert b / BPB <= (sb.size - 1) / BPB;
    RangeFacts(sb.bmapstart, (sb.size - 1) / BPB + 1, BBlock(sb, b));
    assert LogsMaps(l0, LogWrite(l, BBlock(sb, b)), sb);
  }

  lemma TruncateLogs(l0: OpLog, l: OpLog, sb: Super, inode: int)
    requires MapsOnly(l0, l, sb).Sound? && 0 < sb.size
    ensures var r := LogWrite(l, inode);
      l0 == NothingLogged ==>
        |r.all| <= (sb.size - 1) / BPB + 2 && (sb.size <= (MAXOPBLOCKS - 1) * BPB ==> WithinBudget(r))
  {
    assert MapsKey(0, l0, l);
    RangeFacts(sb.bmapstart, (sb.size - 1) / BPB + 1, 0);
    if l0 == NothingLogged {
      SubsetCard(l.all, Maps(sb));
      if sb.size <= (MAXOPBLOCKS - 1) * BPB {
        LastWriteFits(l, inode);
      }
    }
  }

  lemma SliceMore(s: seq<int>, a: int, b: int, c: int)
    requires 0 <= a <= b <= c <= |s|
    ensures s[a..b] + s[b..c] == s[a..c]
  {
  }

  /** A file reaches at least as far as it was written. */
  lemma WroteReaches(b0: seq<Block>, in0: seq<Inode>, b1: seq<Block>, in1: seq<Inode>, i: int, off: int, data: seq<int>)
    requires Wrote(b0, in0, b1, in1, i, off, data).Sound?
    ensures 0 <= i < |in1| == |in0| && off + |data| <= in1[i].size
  {
    OpenWrote(b0, in0, b1, in1, i, off, data);
    assert |Contents(b1, in1[i])| == in1[i].size;
  }

  /** Every block of the disk is taken. */
  ghost predicate DiskFull(owner: map<int, Ref>, size: int) {
    forall b :: 0 <= b < size ==> b in owner
  }

  /** A write that starts past the end does nothing; any other has spliced in the first w source bytes. */
  ghost predicate Progress(b0: seq<Block>, in0: seq<Inode>, b1: seq<Block>, in1: seq<Inode>, i: int, off: int,
      part: seq<int>)
  {
    && 0 <= i < |in0|
    && if off > in0[i].size then part == [] && b1 == b0 && in1 == in0 else Wrote(b0, in0, b1, in1, i, off, part).Sound?
  }

  predicate WroteKey(z: int, b0: seq<Block>, in0: seq<Inode>, b1: seq<Block>, in1: seq<Inode>) {
    true
  }

  ghost function Wrote(b0: seq<Block>, in0: seq<Inode>, b1: seq<Block>, in1: seq<Inode>, i: int, off: int,
      data: seq<int>): (r: Verdict)
  {
    if forall z {:trigger WroteKey(z, b0, in0, b1, in1)} :: WroteKey(z, b0, in0, b1, in1) ==>
         Inodes(in0) && Inodes(in1) && FileWritten(b0, in0, b1, in1, i, off, data)
    then Sound else Broken
  }

  lemma OpenWrote(b0: seq<Block>, in0: seq<Inode>, b1: seq<Block>, in1: seq<Inode>, i: int, off: int, data: seq<int>)
    requires Wrote(b0, in0, b1, in1, i, off, data).Sound?
    ensures Inodes(in0) && Inodes(in1) && FileWritten(b0, in0, b1, in1, i, off, data)
  {
    assert WroteKey(0, b0, in0, b1, in1);
  }

  lemma NothingWritten(blocks: seq<Block>, inodes: seq<Inode>, i: int, off: int, none: seq<int>)
    requires Files(inodes) && 0 <= i < |inodes| && 0 <= off && none == []
    ensures Progress(blocks, inodes, blocks, inodes, i, off, none)
  {
    if off <= inodes[i].size {
      assert Spliced(Contents(blocks, inodes[i]), off, none) == Contents(blocks, inodes[i]);
      assert Inodes(inodes) && FileWritten(blocks, inodes, blocks, inodes, i, off, none);
    }
  }

  lemma SplicedTwice(c: seq<int>, off: int, a: seq<int>, b: seq<int>)
    requires 0 <= off <= |c|
    ensures off + |a| <= |Spliced(c, off, a)|
    ensures Spliced(Spliced(c, off, a), off + |a|, b) == Spliced(c, off, a + b)
  {
  }

  lemma WrittenMore(b0: seq<Block>, in0: seq<Inode>, b1: seq<Block>, in1: seq<Inode>, b2: seq<Block>, in2: seq<Inode>,
                    i: int, off: int, part: seq<int>, mid: int, piece: seq<int>, more: seq<int>)
    requires Wrote(b0, in0, b1, in1, i, off, part).Sound?
    requires Wrote(b1, in1, b2, in2, i, mid, piece).Sound? && mid == off + |part|
    requires more == part + piece
    ensures Wrote(b0, in0, b2, in2, i, off, more).Sound?
  {
    OpenWrote(b0, in0, b1, in1, i, off, part);
    OpenWrote(b1, in1, b2, in2, i, mid, piece);
    SplicedTwice(Contents(b0, in0[i]), off, part, piece);
    assert FileWritten(b0, in0, b2, in2, i, off, more);
  }

  /** Of the inodes only the i-th may differ, and not in size. */
  ghost predicate OnlyChanges(in0: seq<Inode>, in1: seq<Inode>, i: int) {
    && |in1| == |in0| && 0 <= i < |in0| && in1[i].size == in0[i].size
    && forall k :: 0 <= k < |in0| && k != i ==> in1[k] == in0[k]
  }

  /** The files that are not truncated do not notice. */
  lemma TruncatedFacts(b0: seq<Block>, in0: seq<Inode>, o0: map<int, Ref>, sb: Super, b1: seq<Block>,
      in1: seq<Inode>, o1: map<int, Ref>, i: int)
    requires Owned(b0, in0, o0, sb) && NoHoles(b0, in0) && SameData(b0, b1, sb) && Inodes(in1)
    requires |in1| == |in0| && 0 <= i < |in0| && in1[i].size == 0
    requires forall k :: 0 <= k < |in0| && k != i ==> in1[k] == in0[k]
    ensures NoHoles(b1, in1)
    ensures forall k :: 0 <= k < |in0| && k != i ==> Contents(b1, in1[k]) == Contents(b0, in0[k])
  {
    forall k, n | 0 <= k < |in0| && k != i && 0 <= n < MAXFILE
      ensures BlockOf(b1, in1[k], n) == BlockOf(b0, in0[k], n)
    {
      TableIsOwned(b0, in0, o0, sb, -1, 0, k);
    }
    forall k | 0 <= k < |in0| && k != i ensures Contents(b1, in1[k]) == Contents(b0, in0[k]) {
      forall x | 0 <= x < in0[k].size ensures ByteAt(b1, in1[k], x) == ByteAt(b0, in0[k], x) {
        assert 0 <= x / BSIZE < MAXFILE;
        MappedIsData(b0, in0, o0, sb, k, x / BSIZE);
      }
    }
  }

  /** Inode i has lost its blocks; all else is in order. */
  ghost predicate IsCut(b0: seq<Block>, in0: seq<Inode>, o0: map<int, Ref>, b1: seq<Block>, in1: seq<Inode>,
      o1: map<int, Ref>,
                        sb: Super, i: int)
  {
    && InOrder(b0, in0, o0, sb) && Owned(b1, in1, o1, sb)
    && SameData(b0, b1, sb) && OnlyChanges(in0, in1, i)
  }

  predicate CutKey(z: int, b0: seq<Block>, b1: seq<Block>, in1: seq<Inode>) {
    true
  }

  ghost function Cut(b0: seq<Block>, in0: seq<Inode>, o0: map<int, Ref>, b1: seq<Block>, in1: seq<Inode>,
      o1: map<int, Ref>,
                     sb: Super, i: int): (r: Verdict)
  {
    if forall z {:trigger CutKey(z, b0, b1, in1)} :: CutKey(z, b0, b1, in1) ==> IsCut(b0, in0, o0, b1, in1, o1, sb, i)
    then Sound else Broken
  }

  /** Once its size is 0, too, the disk is in order, and no other file has noticed. */
  lemma CutFacts(b0: seq<Block>, in0: seq<Inode>, o0: map<int, Ref>, b1: seq<Block>, in1: seq<Inode>, o1: map<int,
      Ref>, sb: Super, i: int)
    requires Cut(b0, in0, o0, b1, in1, o1, sb, i).Sound? && Files(in0)
    ensures 0 < sb.size && 0 <= i < |in1| == |in0|
    ensures var in2 := in1[i := in1[i].(size := 0)];
      && Files(in2) && Order(b1, in2, o1, sb).Sound?
      && (forall k :: 0 <= k < |in0| && k != i ==> in2[k] == in0[k] && Contents(b1, in2[k]) == Contents(b0, in0[k]))
  {
    assert CutKey(0, b0, b1, in1);
    var in2 := in1[i := in1[i].(size := 0)];
    ResizeKeepsOwned(b1, in1, o1, sb, i, 0);
    TruncatedFacts(b0, in0, o0, sb, b1, in2, o1, i);
    assert InOrder(b1, in2, o1, sb);
  }

  /** Data blocks hold what they held; only bitmap blocks may differ. */
  ghost predicate SameData(b0: seq<Block>, b1: seq<Block>, sb: Super) {
    |b1| == |b0| == sb.size && 0 <= sb.datastart && forall b :: sb.datastart <= b < sb.size ==> b1[b] == b0[b]
  }

  /** File i now reads as before with data spliced in at off, and every other file reads as before. */
  ghost predicate FileWritten(b0: seq<Block>, in0: seq<Inode>, b1: seq<Block>, in1: seq<Inode>, i: int, off: int,
      data: seq<int>)
    requires Inodes(in0) && Inodes(in1)
  {
    && |in1| == |in0| && 0 <= i < |in0| && 0 <= off <= in0[i].size && 0 <= in1[i].size
    && Contents(b1, in1[i]) == Spliced(Contents(b0, in0[i]), off, data)
    && forall k :: 0 <= k < |in0| && k != i ==>
         0 <= in1[k].size == in0[k].size && Contents(b1, in1[k]) == Contents(b0, in0[k])
  }

  lemma FinishFacts(b0: seq<Block>, in0: seq<Inode>, blocks: seq<Block>, in1: seq<Inode>, owner: map<int, Ref>,
      sb: Super,
                    i: int, off: int, src: seq<int>, tot: int)
    requires 0 <= tot <= |src| && IsMidway(blocks, in1, owner, sb, i, off, src, tot, b0, in0)
    requires 0 <= off <= in0[i].size && off + tot <= MAXBYTES
    requires forall k :: 0 <= k < |in0| ==> 0 <= in0[k].size
    ensures var in2 := in1[i := Grown(in1[i], off + tot)];
      && Owned(blocks, in2, owner, sb) && NoHoles(blocks, in2)
      && FileWritten(b0, in0, blocks, in2, i, off, src[..tot])
  {
    SplicedContents(b0, in0, blocks, in1, i, off, src, tot);
    forall k | 0 <= k < |in0| && k != i
      ensures in1[k].size == in0[k].size && Contents(blocks, in1[k]) == Contents(b0, in0[k])
    {
      OtherContents(b0, in0, blocks, in1, i, off, src, tot, k);
    }
    ResizeKeepsOwned(blocks, in1, owner, sb, i, Grown(in1[i], off + tot).size);
    GrownNoHoles(blocks, in1, i, off + tot);
  }

  ghost predicate IsMidway(blocks: seq<Block>, inodes: seq<Inode>, owner: map<int, Ref>, sb: Super,
                           i: int, off: int, src: seq<int>, tot: int, b0: seq<Block>, in0: seq<Inode>)
  {
    && Owned(blocks, inodes, owner, sb) && Inodes(in0) && |in0| == |inodes|
    && (forall k :: 0 <= k < |in0| ==> in0[k].size <= MAXBYTES)
    && 0 <= i < |in0| && 0 <= tot <= |src| && Written(b0, in0, blocks, inodes, i, off, src, tot)
  }

  /** What a write of n bytes at off logs: data blocks, bitmap blocks and the indirect table. */
  ghost predicate Spent(off: int, n: int, ip0: Inode, ip: Inode, data: set<int>, maps: set<int>, l0: set<int>,
      l: set<int>)
    requires |ip0.addrs| == NDIRECT + 1 && |ip.addrs| == NDIRECT + 1
  {
    && |data| <= Span(off, n)
    && |maps| <= Span(off, n) - Unaligned(off, n) + 1
    && l <= l0 + data + maps + NonZero(ip.addrs[NDIRECT])
  }

  /**
   The same once tot bytes are written; an unaligned first block is already mapped, and the table is
   new at most once.
   */
  ghost predicate OnBudget(off: int, tot: int, n: int, ip0: Inode, ip: Inode, data: set<int>, maps: set<int>,
      l0: set<int>, l: set<int>)
    requires |ip0.addrs| == NDIRECT + 1 && |ip.addrs| == NDIRECT + 1
  {
    && (0 < tot < n ==> (off + tot) % BSIZE == 0)
    && (ip0.addrs[NDIRECT] != 0 ==> ip.addrs[NDIRECT] == ip0.addrs[NDIRECT])
    && |data| <= Passed(off, tot, n)
    && |maps| <= Passed(off, tot, n) - Unaligned(off, tot) + Fresh(ip0, ip)
    && l <= l0 + data + maps + NonZero(ip.addrs[NDIRECT])
  }

  predicate MidKey(z: int, blocks: seq<Block>, inodes: seq<Inode>, tot: int) {
    true
  }

  /** The state in the middle of a write that began at (b0, in0): the first tot bytes are in, all else is intact. */
  ghost function Midway(blocks: seq<Block>, inodes: seq<Inode>, owner: map<int, Ref>, sb: Super,
                        i: int, off: int, src: seq<int>, tot: int, b0: seq<Block>, in0: seq<Inode>): (v: Verdict)
  {
    if forall z {:trigger MidKey(z, blocks, inodes, tot)} :: MidKey(z, blocks, inodes, tot) ==>
         IsMidway(blocks, inodes, owner, sb, i, off, src, tot, b0, in0)
    then Sound else Broken
  }

  lemma OpenMidway(blocks: seq<Block>, inodes: seq<Inode>, owner: map<int, Ref>, sb: Super,
                   i: int, off: int, src: seq<int>, tot: int, b0: seq<Block>, in0: seq<Inode>)
    requires Midway(blocks, inodes, owner, sb, i, off, src, tot, b0, in0).Sound?
    ensures IsMidway(blocks, inodes, owner, sb, i, off, src, tot, b0, in0)
  {
    assert MidKey(0, blocks, inodes, tot);
  }

  /** One chunk further, or not. */
  lemma MidwayStep(b0: seq<Block>, in0: seq<Inode>, b1: seq<Block>, in1: seq<Inode>, o1: map<int, Ref>,
                   b2: seq<Block>, in2: seq<Inode>, o2: map<int, Ref>, sb: Super,
                   i: int, off: int, src: seq<int>, tot: int, m: int, data: seq<int>, done: bool)
    requires Midway(b1, in1, o1, sb, i, off, src, tot, b0, in0).Sound? && Owned(b2, in2, o2, sb)
    requires 0 <= off && 0 <= tot < tot + m <= |src| && off + |src| <= MAXBYTES && (off + tot) % BSIZE + m <= BSIZE
    requires data == src[tot..tot+m] && Inodes(in1) && |in2| == |in1| && 0 <= i < |in1|
    requires Stored(b1, in1, b2, in2, i, off + tot, if done then data else [])
    requires done ==> IsMapped(b2, in2[i], (off + tot) / BSIZE)
    ensures Midway(b2, in2, o2, sb, i, off, src, if done then tot + m else tot, b0, in0).Sound?
  {
    OpenMidway(b1, in1, o1, sb, i, off, src, tot, b0, in0);
    var n := if done then m else 0;
    assert src[tot..tot+n] == if done then data else [];
    WrittenStep(b0, in0, b1, in1, b2, in2, i, off, src, tot, n);
    assert IsMidway(b2, in2, o2, sb, i, off, src, tot + n, b0, in0);
  }

  predicate SpendKey(z: int, tot: int, data: set<int>, l: set<int>) {
    true
  }

  ghost function Budget(off: int, tot: int, n: int, ip0: Inode, ip: Inode, data: set<int>, maps: set<int>,
      l0: set<int>, l: set<int>): (v: Verdict)
    requires |ip0.addrs| == NDIRECT + 1 && |ip.addrs| == NDIRECT + 1
  {
    if forall z {:trigger SpendKey(z, tot, data, l)} :: SpendKey(z, tot, data, l) ==>
      OnBudget(off, tot, n, ip0, ip, data, maps, l0, l) then Sound else Broken
  }

  lemma BudgetChunk(off: int, tot: int, n: int, ip0: Inode, ip: Inode, data: set<int>, maps: set<int>,
      l0: set<int>, l: set<int>)
    requires |ip0.addrs| == NDIRECT + 1 && |ip.addrs| == NDIRECT + 1
    requires 0 <= off && 0 <= tot < n && Budget(off, tot, n, ip0, ip, data, maps, l0, l).Sound?
    ensures var m := ChunkLength(off + tot, n - tot); 0 < m <= n - tot && (off + tot) % BSIZE + m <= BSIZE
  {
    assert SpendKey(0, tot, data, l);
    PassedStep(off, tot, n);
  }

  /** Counting: each pass touches one data block and, unless it starts inside a block, allocates at most one. */
  lemma CountStep(off: int, tot: int, n: int, used: int, newMaps: int)
    requires 0 <= off && 0 <= tot < n && (0 < tot ==> (off + tot) % BSIZE == 0)
    requires used <= Passed(off, tot, n) - Unaligned(off, tot)
    requires newMaps <= if (off + tot) % BSIZE != 0 then 0 else 1
    ensures var m := ChunkLength(off + tot, n - tot);
      && used + newMaps <= Passed(off, tot + m, n) - Unaligned(off, tot + m)
      && used + newMaps <= Span(off, n) - Unaligned(off, n)
  {
    PassedStep(off, tot, n);
  }

  lemma BudgetStep(off: int, tot: int, n: int, ip0: Inode, ip: Inode, ip': Inode, data: set<int>, maps: set<int>,
                   newData: set<int>, newMaps: set<int>, l0: set<int>, l: set<int>, l': set<int>)
    requires |ip0.addrs| == NDIRECT + 1 && |ip.addrs| == NDIRECT + 1 && |ip'.addrs| == NDIRECT + 1
    requires 0 <= off && 0 <= tot < n && Budget(off, tot, n, ip0, ip, data, maps, l0, l).Sound?
    requires |newData| <= 1 && |newMaps| <= (if (off + tot) % BSIZE != 0 then 0 else 1) + Fresh(ip, ip')
    requires ip.addrs[NDIRECT] != 0 ==> ip'.addrs[NDIRECT] == ip.addrs[NDIRECT]
    requires l' <= l + newMaps + newData + NonZero(ip'.addrs[NDIRECT])
    ensures Budget(off, tot + ChunkLength(off + tot, n - tot), n, ip0, ip', data + newData, maps + newMaps, l0,
      l').Sound?
    ensures Spent(off, n, ip0, ip', data + newData, maps + newMaps, l0, l')
  {
    assert SpendKey(0, tot, data, l);
    PassedStep(off, tot, n);
    CountStep(off, tot, n, |maps| - Fresh(ip0, ip), |newMaps| - Fresh(ip, ip'));
    assert |data + newData| <= |data| + |newData|;
    assert |maps + newMaps| <= |maps| + |newMaps|;
    LoggedStep(data, maps, newData, newMaps, l0, l, l', ip, ip');
    assert OnBudget(off, tot + ChunkLength(off + tot, n - tot), n, ip0, ip', data + newData, maps + newMaps, l0, l');
  }

  lemma LoggedStep(data: set<int>, maps: set<int>, newData: set<int>, newMaps: set<int>, l0: set<int>, l: set<int>,
      l': set<int>, ip: Inode, ip': Inode)
    requires |ip.addrs| == NDIRECT + 1 && |ip'.addrs| == NDIRECT + 1
    requires l <= l0 + data + maps + NonZero(ip.addrs[NDIRECT])
    requires ip.addrs[NDIRECT] != 0 ==> ip'.addrs[NDIRECT] == ip.addrs[NDIRECT]
    requires l' <= l + newMaps + newData + NonZero(ip'.addrs[NDIRECT])
    ensures l' <= l0 + (data + newData) + (maps + newMaps) + NonZero(ip'.addrs[NDIRECT])
  {
  }

  /**
   A chunk of filewrite logs at most four data blocks, four bitmap blocks and the indirect table
   before it logs the inode.
   */
  lemma FitsInOneOperation(off: int, n: int, ip: Inode, data: set<int>, maps: set<int>, l0: OpLog, l: OpLog, inode: int)
    requires |ip.addrs| == NDIRECT + 1 && 0 <= off && 0 <= n
    requires |data| <= Span(off, n) && |maps| <= Span(off, n) - Unaligned(off, n) + 1
    requires l.all <= l0.all + data + maps + NonZero(ip.addrs[NDIRECT]) && Grows(l0, l)
    ensures n <= CHUNK && l0 == NothingLogged ==>
      |data| <= 4 && |maps| <= 4 && |l.all| <= 9 && WithinBudget(LogWrite(l, inode))
  {
    if n <= CHUNK && l0 == NothingLogged {
      SpanOfChunk(off, n);
      assert |data + maps| <= |data| + |maps|;
      assert |data + maps + NonZero(ip.addrs[NDIRECT])| <= |data + maps| + |NonZero(ip.addrs[NDIRECT])|;
      SubsetCard(l.all, data + maps + NonZero(ip.addrs[NDIRECT]));
      LastWriteFits(l, inode);
    }
  }

  /** An operation that has logged fewer than MAXOPBLOCKS blocks can log one more. */
  lemma LastWriteFits(l: OpLog, b: int)
    requires l.early <= l.all && |l.all| < MAXOPBLOCKS
    ensures WithinBudget(LogWrite(l, b))
  {
    assert l.early + l.all == l.all;
  }

  lemma SpanOfChunk(off: int, n: int)
    requires 0 <= off && 0 <= n <= CHUNK
    ensures Span(off, n) <= 4 && Span(off, n) - Unaligned(off, n) <= 3
  {
    if n > 0 {
      var q, r := off / BSIZE, off % BSIZE;
      assert off + n - 1 == q * BSIZE + (r + n - 1);
      assert r + n - 1 < 4 * BSIZE;
      assert r == 0 ==> r + n - 1 < 3 * BSIZE;
      assert (off + n - 1) / BSIZE == q + (r + n - 1) / BSIZE;
    }
  }

  lemma SubsetCard(a: set<int>, b: set<int>)
    requires a <= b
    ensures |a| <= |b|
  {
    assert b == a + (b - a);
  }

  lemma BudgetSpent(off: int, n: int, ip0: Inode, ip: Inode, data: set<int>, maps: set<int>, l0: set<int>, l: set<int>)
    requires |ip0.addrs| == NDIRECT + 1 && |ip.addrs| == NDIRECT + 1
    requires Budget(off, n, n, ip0, ip, data, maps, l0, l).Sound?
    ensures Spent(off, n, ip0, ip, data, maps, l0, l)
  {
    assert SpendKey(0, n, data, l);
  }

  /** Whether the inode gained its indirect table. */
  function Fresh(before: Inode, after: Inode): (r: int)
    requires |before.addrs| == NDIRECT + 1 && |after.addrs| == NDIRECT + 1
  {
    if before.addrs[NDIRECT] == 0 && after.addrs[NDIRECT] != 0 then 1 else 0
  }

  /** Whether an unaligned first block lies behind. */
  function Unaligned(off: int, tot: int): (r: int) {
    if off % BSIZE != 0 && tot > 0 then 1 else 0
  }

  /** How many blocks the n bytes at off touch. */
  function Span(off: int, n: int): (r: int) {
    if n == 0 then 0 else (off + n - 1) / BSIZE - off / BSIZE + 1
  }

  /** How many of them lie behind once tot bytes are written. */
  function Passed(off: int, tot: int, n: int): (r: int) {
    if tot < n then (off + tot) / BSIZE - off / BSIZE else Span(off, n)
  }

  /** min(n, BSIZE - off % BSIZE): what is left to do, or what is left of the block. */
  function ChunkLength(off: int, n: int): (m: int) {
    if n < BSIZE - off % BSIZE then n else BSIZE - off % BSIZE
  }

  lemma ChunkFits(off: int, n: int)
    requires 0 <= off && 0 < n
    ensures 0 < ChunkLength(off, n) <= n && off % BSIZE + ChunkLength(off, n) <= BSIZE
  {
  }

  lemma PassedStep(off: int, tot: int, n: int)
    requires 0 <= off && 0 <= tot < n && (0 < tot ==> (off + tot) % BSIZE == 0)
    ensures var m := ChunkLength(off + tot, n - tot);
      && 0 < m <= n - tot && (off + tot) % BSIZE + m <= BSIZE
      && (tot + m < n ==> (off + (tot + m)) % BSIZE == 0)
      && Passed(off, tot + m, n) == Passed(off, tot, n) + 1
    ensures 0 <= Passed(off, tot, n) && Passed(off, tot, n) + 1 <= Span(off, n)
  {
    var q, r, m := (off + tot) / BSIZE, (off + tot) % BSIZE, ChunkLength(off + tot, n - tot);
    assert off + tot == q * BSIZE + r;
    if tot + m < n {
      assert off + (tot + m) == (q + 1) * BSIZE;
    } else {
      assert (off + n - 1) / BSIZE == q;
    }
  }

  function NonZero(b: int): (s: set<int>) {
    if b != 0 then {b} else {}
  }

  lemma KeptSelf(blocks: seq<Block>, inodes: seq<Inode>)
    requires Inodes(inodes)
    ensures Kept(blocks, inodes, blocks, inodes)
  {
  }
}
