/** Files as byte sequences over the block map of module Ownership. */
module FileContents {
  import opened Blocks
  import opened Bitmap
  import opened Ownership

  const MAXBYTES: nat := 274432      // MAXFILE * BSIZE

  /** Byte x of a file, found through its block map. */
  function ByteAt(blocks: seq<Block>, ip: Inode, x: int): (v: int)
    requires |ip.addrs| == NDIRECT + 1
  {
    var b := BlockOf(blocks, ip, x / BSIZE);
    if 0 < b < |blocks| && x % BSIZE < |blocks[b].bytes| then blocks[b].bytes[x % BSIZE] else 0
  }

  /** The file as its readers see it. */
  ghost function Contents(blocks: seq<Block>, ip: Inode): (data: seq<int>)
    requires |ip.addrs| == NDIRECT + 1 && 0 <= ip.size
    ensures |data| == ip.size
  {
    seq(ip.size, x requires |ip.addrs| == NDIRECT + 1 => ByteAt(blocks, ip, x))
  }

  /** No block below the file's size is unmapped, and no file outgrows its block map. */
  ghost predicate NoHoles(blocks: seq<Block>, inodes: seq<Inode>)
    requires Inodes(inodes)
  {
    && (forall i :: 0 <= i < |inodes| ==> 0 <= inodes[i].size <= MAXBYTES)
    && (forall i, bn :: 0 <= i < |inodes| && 0 <= bn < MAXFILE && bn * BSIZE < inodes[i].size ==>
       BlockOf(blocks, inodes[i], bn) != 0)
  }

  /** Every mapped block stays where it is, with the same contents; sizes stay. */
  ghost predicate Kept(blocks: seq<Block>, inodes: seq<Inode>, blocks': seq<Block>, inodes': seq<Inode>)
    requires Inodes(inodes) && Inodes(inodes')
  {
    && |blocks'| == |blocks| && |inodes'| == |inodes|
    && (forall i :: 0 <= i < |inodes| ==> inodes'[i].size == inodes[i].size)
    && (forall i, n :: 0 <= i < |inodes| && 0 <= n < MAXFILE ==>
          var b := BlockOf(blocks, inodes[i], n);
          0 < b < |blocks| ==> BlockOf(blocks', inodes'[i], n) == b && blocks'[b] == blocks[b])
  }

  lemma KeptBytes(blocks: seq<Block>, inodes: seq<Inode>, blocks': seq<Block>, inodes': seq<Inode>, i: int, x: int)
    requires Inodes(inodes) && Inodes(inodes') && Kept(blocks, inodes, blocks', inodes')
    requires 0 <= i < |inodes| && 0 <= x < MAXBYTES && 0 < BlockOf(blocks, inodes[i], x / BSIZE) < |blocks|
    ensures ByteAt(blocks', inodes'[i], x) == ByteAt(blocks, inodes[i], x)
  {
  }

  function Splice(b: Block, o: int, data: seq<int>): (r: Block)
    requires 0 <= o && o + |data| <= |b.bytes|
    ensures |r.bytes| == |b.bytes|
  {
    Block(b.bytes[..o] + data + b.bytes[o+|data|..])
  }

  ghost predicate AreBytes(data: seq<int>) {
    forall k :: 0 <= k < |data| ==> IsByte(data[k])
  }

  lemma SpliceSized(b: Block, o: int, data: seq<int>)
    requires Sized(b) && AreBytes(data) && 0 <= o && o + |data| <= BSIZE
    ensures Sized(Splice(b, o, data))
  {
  }

  /** Storing into a data block leaves the ownership of all blocks alone. */
  lemma StoreKeepsOwned(blocks: seq<Block>, inodes: seq<Inode>, owner: map<int, Ref>, sb: Super, addr: int, v: Block)
    requires Owned(blocks, inodes, owner, sb) && addr in owner && owner[addr].Data? && Sized(v)
    ensures 0 < addr < |blocks|
    ensures Owned(blocks[addr := v], inodes, owner, sb)
    ensures SameTables(blocks, blocks[addr := v], inodes)
  {
    forall i | 0 <= i < |inodes|
      ensures var b := inodes[i].addrs[NDIRECT]; 0 < b < |blocks| ==> blocks[addr := v][b] == blocks[b]
    {
      TableIsOwned(blocks, inodes, owner, sb, -1, 0, i);
    }
    SameTablesSameFiles(blocks, blocks[addr := v], inodes, owner, sb, -1, 0);
    StoreKeepsBits(blocks, owner, sb, addr, v);
  }

  lemma StoreKeepsBits(blocks: seq<Block>, owner: map<int, Ref>, sb: Super, addr: int, v: Block)
    requires Shape(blocks, sb) && Bits(blocks, sb, owner, -1) && sb.datastart <= addr < sb.size && Sized(v)
    ensures Shape(blocks[addr := v], sb) && Bits(blocks[addr := v], sb, owner, -1)
  {
    forall c | 0 <= c < sb.size ensures InUse(blocks[addr := v], sb, c) <==> InUse(blocks, sb, c) {
      assert c / BPB <= (sb.size - 1) / BPB;
    }
  }

  /** Storing data at offset o of the bn-th block of file i changes just those bytes of just that file. */
  lemma StoreBytes(blocks: seq<Block>, inodes: seq<Inode>, owner: map<int, Ref>, sb: Super, i: int, bn: int,
      o: int, data: seq<int>, k: int, x: int)
    requires Owned(blocks, inodes, owner, sb) && 0 <= i < |inodes| && 0 <= bn < MAXFILE
    requires BlockOf(blocks, inodes[i], bn) != 0
    requires AreBytes(data) && 0 <= o && o + |data| <= BSIZE
    requires 0 <= k < |inodes| && 0 <= x < MAXBYTES
    ensures var addr := BlockOf(blocks, inodes[i], bn);
      && 0 < addr < |blocks| && |blocks[addr].bytes| == BSIZE
      && var blocks' := blocks[addr := Splice(blocks[addr], o, data)];
         var at := bn * BSIZE + o;
         ByteAt(blocks', inodes[k], x) == if k == i && at <= x < at + |data| then data[x - at]
           else ByteAt(blocks, inodes[k], x)
  {
    var addr := BlockOf(blocks, inodes[i], bn);
    assert addr in owner && owner[addr] == Data(i, bn);
    assert Sized(blocks[addr]);
    var v := Splice(blocks[addr], o, data);
    SpliceSized(blocks[addr], o, data);
    StoreKeepsOwned(blocks, inodes, owner, sb, addr, v);
    SameTablesSameFiles(blocks, blocks[addr := v], inodes, owner, sb, -1, 0);
    var n := x / BSIZE;
    assert 0 <= n < MAXFILE;
    var b := BlockOf(blocks, inodes[k], n);
    assert b != 0 ==> b in owner && owner[b] == Data(k, n);
    assert b == addr ==> k == i && n == bn;
  }

  // ---------- growing a file by one block keeps every file ----------

  lemma MappedIsData(blocks: seq<Block>, inodes: seq<Inode>, owner: map<int, Ref>, sb: Super, k: int, n: int)
    requires Owned(blocks, inodes, owner, sb) && 0 <= k < |inodes| && 0 <= n < MAXFILE
    ensures var b := BlockOf(blocks, inodes[k], n);
      b != 0 ==> b in owner && owner[b] == Data(k, n) && sb.datastart <= b < sb.size
  {
    var b := BlockOf(blocks, inodes[k], n);
    if b != 0 {
      assert b in owner && owner[b] == Data(k, n);
    }
  }

  lemma TakeDirect(blocks: seq<Block>, inodes: seq<Inode>, owner: map<int, Ref>, sb: Super, r: int, i: int, bn: int)
    requires Owned(blocks, inodes, owner, sb) && 0 <= r < sb.size && r !in owner
    requires 0 <= i < |inodes| && 0 <= bn < NDIRECT && inodes[i].addrs[bn] == 0
    ensures sb.datastart <= r && 0 <= BBlock(sb, r) < sb.datastart && HasBit(blocks[BBlock(sb, r)], r % BPB)
    ensures var b1, in1 := Alloc(blocks, sb, r), SetAddr(inodes, i, bn, r);
      Owned(b1, in1, owner[r := Data(i, bn)], sb) && Kept(blocks, inodes, b1, in1)
  {
    AllocKeeps(blocks, inodes, owner, sb, r);
    var b1, in1 := Alloc(blocks, sb, r), SetAddr(inodes, i, bn, r);
    GiveDirect(b1, inodes, owner, sb, r, i, bn);
    forall k, n | 0 <= k < |inodes| && 0 <= n < MAXFILE
      ensures var b := BlockOf(blocks, inodes[k], n); 0 < b < |blocks| ==>
        BlockOf(b1, in1[k], n) == b && b1[b] == blocks[b]
    {
      MappedIsData(blocks, inodes, owner, sb, k, n);
      assert BlockOf(b1, inodes[k], n) == BlockOf(blocks, inodes[k], n);
    }
  }

  lemma TakeTable(blocks: seq<Block>, inodes: seq<Inode>, owner: map<int, Ref>, sb: Super, r: int, i: int)
    requires Owned(blocks, inodes, owner, sb) && 0 <= r < sb.size && r !in owner
    requires 0 <= i < |inodes| && inodes[i].addrs[NDIRECT] == 0
    ensures sb.datastart <= r && 0 <= BBlock(sb, r) < sb.datastart && HasBit(blocks[BBlock(sb, r)], r % BPB)
    ensures var b1, in1 := Alloc(blocks, sb, r), SetAddr(inodes, i, NDIRECT, r);
      && Owned(b1, in1, owner[r := Table(i)], sb) && Kept(blocks, inodes, b1, in1)
      && forall n :: 0 <= n < MAXFILE ==> BlockOf(b1, in1[i], n) == BlockOf(blocks, inodes[i], n)
  {
    AllocKeeps(blocks, inodes, owner, sb, r);
    var b1, in1 := Alloc(blocks, sb, r), SetAddr(inodes, i, NDIRECT, r);
    GiveTable(b1, inodes, owner, sb, r, i);
    forall k, n | 0 <= k < |inodes| && 0 <= n < MAXFILE
      ensures BlockOf(b1, in1[k], n) == BlockOf(blocks, inodes[k], n)
      ensures var b := BlockOf(blocks, inodes[k], n); 0 < b < |blocks| ==> b1[b] == blocks[b]
    {
      MappedIsData(blocks, inodes, owner, sb, k, n);
      assert BlockOf(b1, inodes[k], n) == BlockOf(blocks, inodes[k], n);
    }
  }

  lemma TakeEntry(blocks: seq<Block>, inodes: seq<Inode>, owner: map<int, Ref>, sb: Super, r: int, i: int, j: int)
    requires Owned(blocks, inodes, owner, sb) && 0 <= r < sb.size && r !in owner
    requires 0 <= i < |inodes| && 0 <= j < WORDS && inodes[i].addrs[NDIRECT] != 0
    requires Entry(blocks, inodes[i].addrs[NDIRECT], j) == 0
    ensures sb.datastart <= r && 0 <= BBlock(sb, r) < sb.datastart && HasBit(blocks[BBlock(sb, r)], r % BPB)
    ensures var b1, t := Alloc(blocks, sb, r), inodes[i].addrs[NDIRECT];
      && 0 < t < |b1| && Sized(b1[t])
      && var b2 := SetEntry(b1, t, j, r);
      && Owned(b2, inodes, owner[r := Data(i, NDIRECT + j)], sb) && Kept(blocks, inodes, b2, inodes)
      && BlockOf(b2, inodes[i], NDIRECT + j) == r
  {
    AllocKeeps(blocks, inodes, owner, sb, r);
    TableIsOwned(blocks, inodes, owner, sb, -1, 0, i);
    var b1, t := Alloc(blocks, sb, r), inodes[i].addrs[NDIRECT];
    assert BlockOf(b1, inodes[i], NDIRECT + j) == BlockOf(blocks, inodes[i], NDIRECT + j);
    GiveEntry(b1, inodes, owner, sb, r, i, j);
    SetEntryFiles(b1, inodes, owner, sb, i, j, r);
    var b2 := SetEntry(b1, t, j, r);
    forall k, n | 0 <= k < |inodes| && 0 <= n < MAXFILE
      ensures var b := BlockOf(blocks, inodes[k], n); 0 < b < |blocks| ==>
        BlockOf(b2, inodes[k], n) == b && b2[b] == blocks[b]
    {
      MappedIsData(blocks, inodes, owner, sb, k, n);
      assert BlockOf(b1, inodes[k], n) == BlockOf(blocks, inodes[k], n);
      assert BlockOf(b2, inodes[k], n) == if k == i && n == NDIRECT + j then r else BlockOf(b1, inodes[k], n);
    }
    assert BlockOf(b2, inodes[i], NDIRECT + j) == r;
  }

  lemma KeptTrans(b0: seq<Block>, in0: seq<Inode>, b1: seq<Block>, in1: seq<Inode>, b2: seq<Block>, in2: seq<Inode>)
    requires Inodes(in0) && Inodes(in1) && Inodes(in2)
    requires Kept(b0, in0, b1, in1) && Kept(b1, in1, b2, in2)
    ensures Kept(b0, in0, b2, in2)
  {
  }

  // ---------- a write, one block at a time ----------

  predicate IsMapped(blocks: seq<Block>, ip: Inode, n: int)
    requires |ip.addrs| == NDIRECT + 1
  {
    0 < BlockOf(blocks, ip, n) < |blocks|
  }

  /** One block's worth of a write: data appears at off in file i, and every other mapped byte is kept. */
  ghost predicate Stored(b0: seq<Block>, in0: seq<Inode>, b1: seq<Block>, in1: seq<Inode>, i: int, off: int,
      data: seq<int>)
    requires Inodes(in0) && Inodes(in1) && |in1| == |in0| && 0 <= i < |in0|
  {
    && |b1| == |b0| && (forall k :: 0 <= k < |in0| ==> in1[k].size == in0[k].size)
    && (forall k, n :: 0 <= k < |in0| && 0 <= n < MAXFILE && IsMapped(b0, in0[k], n) ==> IsMapped(b1, in1[k], n))
    && (forall k, x ::
        0 <= k < |in0| && 0 <= x < MAXBYTES && IsMapped(b0, in0[k], x / BSIZE)
        && !(k == i && off <= x < off + |data|) ==>
          ByteAt(b1, in1[k], x) == ByteAt(b0, in0[k], x))
    && (forall x :: off <= x < off + |data| ==> ByteAt(b1, in1[i], x) == data[x - off])
  }

  lemma KeptIsStored(b0: seq<Block>, in0: seq<Inode>, b1: seq<Block>, in1: seq<Inode>, i: int, off: int)
    requires Inodes(in0) && Inodes(in1) && Kept(b0, in0, b1, in1) && 0 <= i < |in0|
    ensures Stored(b0, in0, b1, in1, i, off, [])
  {
    forall k, x | 0 <= k < |in0| && 0 <= x < MAXBYTES && IsMapped(b0, in0[k], x / BSIZE)
      ensures ByteAt(b1, in1[k], x) == ByteAt(b0, in0[k], x)
    {
      KeptBytes(b0, in0, b1, in1, k, x);
    }
  }

  /** Mapping the block and then storing into it. */
  lemma MapThenStore(b0: seq<Block>, in0: seq<Inode>, b1: seq<Block>, in1: seq<Inode>, owner: map<int, Ref>,
      sb: Super, i: int, off: int, data: seq<int>)
    requires Inodes(in0) && Owned(b1, in1, owner, sb) && Kept(b0, in0, b1, in1) && 0 <= i < |in0|
    requires 0 <= off < MAXBYTES && off % BSIZE + |data| <= BSIZE && AreBytes(data)
    requires IsMapped(b1, in1[i], off / BSIZE)
    ensures var addr := BlockOf(b1, in1[i], off / BSIZE);
      && |b1[addr].bytes| == BSIZE
      && var b2 := b1[addr := Splice(b1[addr], off % BSIZE, data)];
      && Owned(b2, in1, owner, sb)
      && Stored(b0, in0, b2, in1, i, off, data)
      && IsMapped(b2, in1[i], off / BSIZE)
  {
    var bn := off / BSIZE;
    var addr := BlockOf(b1, in1[i], bn);
    MappedIsData(b1, in1, owner, sb, i, bn);
    assert Sized(b1[addr]);
    var v := Splice(b1[addr], off % BSIZE, data);
    SpliceSized(b1[addr], off % BSIZE, data);
    StoreKeepsOwned(b1, in1, owner, sb, addr, v);
    SameTablesSameFiles(b1, b1[addr := v], in1, owner, sb, -1, 0);
    StoreIsStored(b0, in0, b1, in1, owner, sb, i, off, data);
  }

  lemma StoreIsStored(b0: seq<Block>, in0: seq<Inode>, b1: seq<Block>, in1: seq<Inode>, owner: map<int, Ref>,
      sb: Super, i: int, off: int, data: seq<int>)
    requires Inodes(in0) && Owned(b1, in1, owner, sb) && Kept(b0, in0, b1, in1) && 0 <= i < |in0|
    requires 0 <= off < MAXBYTES && off % BSIZE + |data| <= BSIZE && AreBytes(data)
    requires IsMapped(b1, in1[i], off / BSIZE)
    requires |b1[BlockOf(b1, in1[i], off / BSIZE)].bytes| == BSIZE
    requires var addr := BlockOf(b1, in1[i], off / BSIZE);
      SameTables(b1, b1[addr := Splice(b1[addr], off % BSIZE, data)], in1)
    ensures var addr := BlockOf(b1, in1[i], off / BSIZE);
      Stored(b0, in0, b1[addr := Splice(b1[addr], off % BSIZE, data)], in1, i, off, data)
  {
    var bn := off / BSIZE;
    var addr := BlockOf(b1, in1[i], bn);
    var b2 := b1[addr := Splice(b1[addr], off % BSIZE, data)];
    forall k, n | 0 <= k < |in0| && 0 <= n < MAXFILE && IsMapped(b0, in0[k], n) ensures IsMapped(b2, in1[k], n) {
      assert BlockOf(b1, in1[k], n) == BlockOf(b0, in0[k], n);
    }
    forall k, x | 0 <= k < |in0| && 0 <= x < MAXBYTES && IsMapped(b0, in0[k], x / BSIZE)
      && !(k == i && off <= x < off + |data|)
      ensures ByteAt(b2, in1[k], x) == ByteAt(b0, in0[k], x)
    {
      KeptBytes(b0, in0, b1, in1, k, x);
      StoreBytes(b1, in1, owner, sb, i, bn, off % BSIZE, data, k, x);
    }
    forall x | off <= x < off + |data| ensures ByteAt(b2, in1[i], x) == data[x - off] {
      assert x / BSIZE == bn;
      StoreBytes(b1, in1, owner, sb, i, bn, off % BSIZE, data, i, x);
    }
  }

  /** Blocks below byte hi of file i are mapped. */
  ghost predicate MappedTo(blocks: seq<Block>, ip: Inode, hi: int)
    requires |ip.addrs| == NDIRECT + 1
  {
    forall n :: 0 <= n < MAXFILE && n * BSIZE < hi ==> IsMapped(blocks, ip, n)
  }

  /** The first tot bytes of src are in place at lo of file i; everything else below each file's size is as it was. */
  ghost predicate Written(b0: seq<Block>, in0: seq<Inode>, b1: seq<Block>, in1: seq<Inode>, i: int, lo: int,
      src: seq<int>, tot: int)
    requires Inodes(in0) && Inodes(in1) && |in1| == |in0| && 0 <= i < |in0| && 0 <= tot <= |src|
  {
    && (forall k :: 0 <= k < |in0| ==> in1[k].size == in0[k].size)
    && (forall k :: 0 <= k < |in0| ==> MappedTo(b1, in1[k], in1[k].size)) && MappedTo(b1, in1[i], lo + tot)
    && (forall k, x :: 0 <= k < |in0| && 0 <= x < in0[k].size && !(k == i && lo <= x < lo + tot) ==>
          ByteAt(b1, in1[k], x) == ByteAt(b0, in0[k], x))
    && (forall x :: lo <= x < lo + tot ==> ByteAt(b1, in1[i], x) == src[x - lo])
  }

  lemma WrittenStep(b0: seq<Block>, in0: seq<Inode>, b1: seq<Block>, in1: seq<Inode>, b2: seq<Block>, in2: seq<Inode>,
                    i: int, lo: int, src: seq<int>, tot: int, m: int)
    requires Inodes(in0) && Inodes(in1) && Inodes(in2) && |in1| == |in0| && |in2| == |in0| && 0 <= i < |in0|
    requires 0 <= lo && 0 <= tot <= tot + m <= |src| && lo + |src| <= MAXBYTES
    requires forall k :: 0 <= k < |in0| ==> in0[k].size <= MAXBYTES
    requires Written(b0, in0, b1, in1, i, lo, src, tot)
    requires Stored(b1, in1, b2, in2, i, lo + tot, src[tot..tot+m])
    requires m > 0 ==> (lo + tot) % BSIZE + m <= BSIZE && IsMapped(b2, in2[i], (lo + tot) / BSIZE)
    ensures Written(b0, in0, b2, in2, i, lo, src, tot + m)
  {
    WrittenMapped(b1, in1, b2, in2, i, lo + tot, m, src[tot..tot+m]);
    forall k, x | 0 <= k < |in0| && 0 <= x < in0[k].size && !(k == i && lo <= x < lo + tot + m)
      ensures ByteAt(b2, in2[k], x) == ByteAt(b0, in0[k], x)
    {
      assert x / BSIZE * BSIZE < in1[k].size;
      assert IsMapped(b1, in1[k], x / BSIZE);
    }
    forall x | lo <= x < lo + tot + m ensures ByteAt(b2, in2[i], x) == src[x - lo] {
      if x < lo + tot {
        assert x / BSIZE * BSIZE < lo + tot;
        assert IsMapped(b1, in1[i], x / BSIZE);
      }
    }
  }

  lemma WrittenMapped(b1: seq<Block>, in1: seq<Inode>, b2: seq<Block>, in2: seq<Inode>, i: int, off: int, m: int,
      data: seq<int>)
    requires Inodes(in1) && Inodes(in2) && |in2| == |in1| && 0 <= i < |in1| && 0 <= off && 0 <= m
    requires forall k :: 0 <= k < |in1| ==> MappedTo(b1, in1[k], in1[k].size)
    requires MappedTo(b1, in1[i], off) && Stored(b1, in1, b2, in2, i, off, data)
    requires m > 0 ==> off % BSIZE + m <= BSIZE && IsMapped(b2, in2[i], off / BSIZE)
    ensures forall k :: 0 <= k < |in1| ==> MappedTo(b2, in2[k], in2[k].size)
    ensures MappedTo(b2, in2[i], off + m)
  {
    forall n | 0 <= n < MAXFILE && n * BSIZE < off + m ensures IsMapped(b2, in2[i], n) {
      if n * BSIZE < off {
        assert IsMapped(b1, in1[i], n);
      }
    }
  }

  lemma WrittenNothing(blocks: seq<Block>, inodes: seq<Inode>, owner: map<int, Ref>, sb: Super, i: int, lo: int,
      src: seq<int>)
    requires Owned(blocks, inodes, owner, sb) && NoHoles(blocks, inodes) && 0 <= i < |inodes|
    requires 0 <= lo <= inodes[i].size
    ensures Written(blocks, inodes, blocks, inodes, i, lo, src, 0)
  {
    forall k | 0 <= k < |inodes| ensures MappedTo(blocks, inodes[k], inodes[k].size) {
      forall n | 0 <= n < MAXFILE && n * BSIZE < inodes[k].size ensures IsMapped(blocks, inodes[k], n) {
        MappedIsData(blocks, inodes, owner, sb, k, n);
        assert BlockOf(blocks, inodes[k], n) != 0;
      }
    }
  }

  /** A write that starts inside a block starts inside a mapped block. */
  lemma FirstBlockMapped(blocks: seq<Block>, inodes: seq<Inode>, i: int, off: int)
    requires Inodes(inodes) && 0 <= i < |inodes| && 0 <= off < MAXBYTES
    ensures MappedTo(blocks, inodes[i], off) && off % BSIZE != 0 ==> BlockOf(blocks, inodes[i], off / BSIZE) != 0
  {
    if MappedTo(blocks, inodes[i], off) && off % BSIZE != 0 {
      assert off / BSIZE * BSIZE < off;
      assert IsMapped(blocks, inodes[i], off / BSIZE);
    }
  }

  // ---------- the finished write ----------

  /** data written over the contents at off, extending them if it reaches past the end. */
  function Spliced(contents: seq<int>, off: int, data: seq<int>): (r: seq<int>)
    requires 0 <= off <= |contents|
  {
    contents[..off] + data + (if off + |data| < |contents| then contents[off+|data|..] else [])
  }

  function Grown(ip: Inode, hi: int): (r: Inode) {
    if hi > ip.size then ip.(size := hi) else ip
  }

  lemma SplicedContents(b0: seq<Block>, in0: seq<Inode>, b1: seq<Block>, in1: seq<Inode>, i: int, lo: int,
      src: seq<int>, tot: int)
    requires Inodes(in0) && Inodes(in1) && |in1| == |in0| && 0 <= i < |in0| && 0 <= tot <= |src|
    requires Written(b0, in0, b1, in1, i, lo, src, tot) && 0 <= lo <= in0[i].size
    ensures Contents(b1, Grown(in1[i], lo + tot)) == Spliced(Contents(b0, in0[i]), lo, src[..tot])
  {
    var ip, want := Grown(in1[i], lo + tot), Spliced(Contents(b0, in0[i]), lo, src[..tot]);
    forall x | 0 <= x < ip.size ensures Contents(b1, ip)[x] == want[x] {
      assert ByteAt(b1, ip, x) == ByteAt(b1, in1[i], x);
    }
  }

  lemma OtherContents(b0: seq<Block>, in0: seq<Inode>, b1: seq<Block>, in1: seq<Inode>, i: int, lo: int,
      src: seq<int>, tot: int, k: int)
    requires Inodes(in0) && Inodes(in1) && |in1| == |in0| && 0 <= i < |in0| && 0 <= tot <= |src|
    requires Written(b0, in0, b1, in1, i, lo, src, tot) && 0 <= k < |in0| && k != i && 0 <= in0[k].size
    ensures in1[k].size == in0[k].size && Contents(b1, in1[k]) == Contents(b0, in0[k])
  {
    forall x | 0 <= x < in0[k].size ensures Contents(b1, in1[k])[x] == Contents(b0, in0[k])[x] {
    }
  }

  /** The ownership rule speaks of addresses only. */
  lemma ResizeKeepsOwned(blocks: seq<Block>, inodes: seq<Inode>, owner: map<int, Ref>, sb: Super, i: int, n: int)
    requires Owned(blocks, inodes, owner, sb) && 0 <= i < |inodes|
    ensures Owned(blocks, inodes[i := inodes[i].(size := n)], owner, sb)
  {
    var in1 := inodes[i := inodes[i].(size := n)];
    forall k, bn | 0 <= k < |inodes| && 0 <= bn < MAXFILE
      ensures BlockOf(blocks, in1[k], bn) == BlockOf(blocks, inodes[k], bn)
    {
    }
  }

  lemma GrownNoHoles(blocks: seq<Block>, inodes: seq<Inode>, i: int, hi: int)
    requires Inodes(inodes) && 0 <= i < |inodes| && 0 <= hi <= MAXBYTES
    requires forall k :: 0 <= k < |inodes| ==>
      0 <= inodes[k].size <= MAXBYTES && MappedTo(blocks, inodes[k], inodes[k].size)
    requires MappedTo(blocks, inodes[i], hi)
    ensures NoHoles(blocks, inodes[i := Grown(inodes[i], hi)])
  {
    var in1 := inodes[i := Grown(inodes[i], hi)];
    forall k, n | 0 <= k < |in1| && 0 <= n < MAXFILE && n * BSIZE < in1[k].size
      ensures BlockOf(blocks, in1[k], n) != 0
    {
      assert IsMapped(blocks, inodes[k], n);
    }
  }

  /** What readi copies out of one block is the corresponding stretch of the file. */
  lemma ChunkOfContents(blocks: seq<Block>, ip: Inode, x: int, m: int)
    requires |ip.addrs| == NDIRECT + 1 && 0 <= x && 0 <= m && x + m <= ip.size && x % BSIZE + m <= BSIZE
    requires IsMapped(blocks, ip, x / BSIZE) && |blocks[BlockOf(blocks, ip, x / BSIZE)].bytes| == BSIZE
    ensures blocks[BlockOf(blocks, ip, x / BSIZE)].bytes[x % BSIZE..x % BSIZE + m] == Contents(blocks, ip)[x..x+m]
  {
    var b := BlockOf(blocks, ip, x / BSIZE);
    var chunk, want := blocks[b].bytes[x % BSIZE..x % BSIZE + m], Contents(blocks, ip)[x..x+m];
    forall k | 0 <= k < m ensures chunk[k] == want[k] {
      assert (x + k) / BSIZE == x / BSIZE && (x + k) % BSIZE == x % BSIZE + k;
    }
  }
}
