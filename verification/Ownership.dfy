/**
 Who owns which disk block (kernel/fs.c): inodes with NDIRECT direct slots and one indirect
 table, a bitmap, and the rule that a bit is set exactly when one slot refers to the block.

 The disk is taken as the buffer cache shows it.  owner is history: it records, for each block
 in use, the single place that refers to it.
 */
module Ownership {
  import opened Basics
  import opened Blocks
  import opened Bitmap

  const NDIRECT: nat := 12
  const MAXFILE: nat := 268          // NDIRECT + BSIZE / 4

  /** The disk layout: blocks below datastart (boot, super, log, inodes, bitmap) belong to the file system itself. */
  datatype Super = Super(size: int, inodestart: int, bmapstart: int, datastart: int)

  datatype Inode = Inode(size: int, addrs: seq<int>)

  /** The place that refers to a block: none but the layout itself, the bn-th block of inode i, or i's indirect slot. */
  datatype Ref = Meta | Data(i: int, bn: int) | Table(i: int)

  predicate GoodSuper(sb: Super) {
    0 < sb.inodestart < sb.bmapstart < sb.datastart <= sb.size <= TWO32
      && sb.bmapstart + (sb.size - 1) / BPB < sb.datastart
  }

  /** The bitmap block that holds block b's bit. */
  function BBlock(sb: Super, b: int): (r: int) {
    b / BPB + sb.bmapstart
  }

  ghost predicate Shape(blocks: seq<Block>, sb: Super) {
    GoodSuper(sb) && |blocks| == sb.size && forall b :: 0 <= b < |blocks| ==> Sized(blocks[b])
  }

  predicate InUse(blocks: seq<Block>, sb: Super, b: int) {
    && 0 <= BBlock(sb, b) < |blocks|
    && HasBit(blocks[BBlock(sb, b)], b % BPB)
    && GetBit(blocks[BBlock(sb, b)], b % BPB)
  }

  /** The bits of the owned blocks are set, and that of one block in transit, and no other. */
  ghost predicate Bits(blocks: seq<Block>, sb: Super, owner: map<int, Ref>, transit: int) {
    forall b :: 0 <= b < sb.size ==> (InUse(blocks, sb, b) <==> b in owner || b == transit)
  }

  /** Word j of block b, taken as an indirect table; a missing table has no entries. */
  function Entry(blocks: seq<Block>, b: int, j: int): (v: int) {
    if 0 < b < |blocks| && 0 <= 4 * j && 4 * j + 3 < |blocks[b].bytes| then GetWord(blocks[b], j) else 0
  }

  /** The block that holds the bn-th block of a file, or 0. */
  function BlockOf(blocks: seq<Block>, ip: Inode, bn: int): (b: int)
    requires |ip.addrs| == NDIRECT + 1
  {
    if 0 <= bn < NDIRECT then ip.addrs[bn] else Entry(blocks, ip.addrs[NDIRECT], bn - NDIRECT)
  }

  ghost predicate Inodes(inodes: seq<Inode>) {
    forall i :: 0 <= i < |inodes| ==> |inodes[i].addrs| == NDIRECT + 1
  }

  /** Every reference names a block that this very place owns; the first `done` table entries of inode t are excused. */
  ghost predicate Mapped(blocks: seq<Block>, inodes: seq<Inode>, owner: map<int, Ref>, t: int, done: int)
    requires Inodes(inodes)
  {
    && (forall i, bn :: 0 <= i < |inodes| && 0 <= bn < MAXFILE && !(i == t && NDIRECT <= bn < NDIRECT + done) ==>
          var b := BlockOf(blocks, inodes[i], bn); b != 0 ==> b in owner && owner[b] == Data(i, bn))
    && (forall i :: 0 <= i < |inodes| ==>
          var b := inodes[i].addrs[NDIRECT]; b != 0 ==> b in owner && owner[b] == Table(i))
  }

  /** Every owned block is where its owner record says. */
  ghost predicate Backed(blocks: seq<Block>, inodes: seq<Inode>, owner: map<int, Ref>, sb: Super)
    requires Inodes(inodes)
  {
    forall b :: b in owner ==>
      && 0 <= b < sb.size
      && match owner[b]
         case Meta => b < sb.datastart
         case Data(i, bn) => sb.datastart <= b && 0 <= i < |inodes| && 0 <= bn < MAXFILE
           && BlockOf(blocks, inodes[i], bn) == b
         case Table(i) => sb.datastart <= b && 0 <= i < |inodes| && inodes[i].addrs[NDIRECT] == b
  }

  ghost predicate MetaOwned(owner: map<int, Ref>, sb: Super) {
    forall b :: 0 <= b < sb.datastart ==> b in owner && owner[b] == Meta
  }

  /** The state between two critical updates: everything in order but one allocated block nobody refers to yet. */
  ghost predicate InTransit(blocks: seq<Block>, inodes: seq<Inode>, owner: map<int, Ref>, sb: Super, transit: int)
  {
    && Shape(blocks, sb) && Inodes(inodes)
    && Bits(blocks, sb, owner, transit)
    && Mapped(blocks, inodes, owner, -1, 0)
    && Backed(blocks, inodes, owner, sb)
    && MetaOwned(owner, sb)
  }

  /** Block ownership: a bit is set exactly when one slot, or the layout, refers to the block. */
  ghost predicate Owned(blocks: seq<Block>, inodes: seq<Inode>, owner: map<int, Ref>, sb: Super)
  {
    InTransit(blocks, inodes, owner, sb, -1)
  }

  // ---------- changes that touch no table ----------

  /** Blocks may change as long as no inode's table does: then every file keeps its blocks. */
  ghost predicate SameTables(blocks: seq<Block>, blocks': seq<Block>, inodes: seq<Inode>)
    requires Inodes(inodes)
  {
    |blocks'| == |blocks| && forall i :: 0 <= i < |inodes| ==>
      var b := inodes[i].addrs[NDIRECT]; 0 < b < |blocks| ==> blocks'[b] == blocks[b]
  }

  lemma SameTablesSameFiles(blocks: seq<Block>, blocks': seq<Block>, inodes: seq<Inode>, owner: map<int, Ref>,
      sb: Super, t: int, done: int)
    requires Inodes(inodes) && SameTables(blocks, blocks', inodes)
    requires Mapped(blocks, inodes, owner, t, done) && Backed(blocks, inodes, owner, sb)
    ensures Mapped(blocks', inodes, owner, t, done) && Backed(blocks', inodes, owner, sb)
    ensures forall i, bn :: 0 <= i < |inodes| && 0 <= bn < MAXFILE ==>
      BlockOf(blocks', inodes[i], bn) == BlockOf(blocks, inodes[i], bn)
  {
    forall i, bn | 0 <= i < |inodes| && 0 <= bn < MAXFILE
      ensures BlockOf(blocks', inodes[i], bn) == BlockOf(blocks, inodes[i], bn)
    {
    }
  }

  /** The bitmap update: the bit of b goes on or off, nothing else changes. */
  function MarkBit(blocks: seq<Block>, sb: Super, b: int, on: bool): (r: seq<Block>)
    requires 0 <= BBlock(sb, b) < |blocks| && HasBit(blocks[BBlock(sb, b)], b % BPB)
  {
    blocks[BBlock(sb, b) := PutBit(blocks[BBlock(sb, b)], b % BPB, on)]
  }

  lemma MarkBitAt(blocks: seq<Block>, sb: Super, b: int, on: bool, c: int)
    requires Shape(blocks, sb) && 0 <= b < sb.size && 0 <= c < sb.size
    ensures 0 <= BBlock(sb, b) < sb.datastart && HasBit(blocks[BBlock(sb, b)], b % BPB)
    ensures Shape(MarkBit(blocks, sb, b, on), sb)
    ensures InUse(MarkBit(blocks, sb, b, on), sb, c) == if c == b then on else InUse(blocks, sb, c)
  {
    assert b / BPB <= (sb.size - 1) / BPB;
    assert c / BPB <= (sb.size - 1) / BPB;
    assert Sized(blocks[BBlock(sb, b)]) && Sized(blocks[BBlock(sb, c)]);
    PutBitAt(blocks[BBlock(sb, b)], b % BPB, on, c % BPB);
    assert c / BPB == b / BPB && c % BPB == b % BPB ==> c == b;
  }

  // ---------- balloc, and the three places a new block can go ----------

  /** balloc's update: mark the block used and zero it. */
  function Alloc(blocks: seq<Block>, sb: Super, r: int): (blocks': seq<Block>)
    requires 0 <= r < |blocks| && 0 <= BBlock(sb, r) < |blocks| && HasBit(blocks[BBlock(sb, r)], r % BPB)
  {
    MarkBit(blocks, sb, r, true)[r := ZeroBlock()]
  }

  lemma TableIsOwned(blocks: seq<Block>, inodes: seq<Inode>, owner: map<int, Ref>, sb: Super, t: int, done: int, i: int)
    requires Inodes(inodes) && Mapped(blocks, inodes, owner, t, done)
    requires Backed(blocks, inodes, owner, sb) && 0 <= i < |inodes|
    ensures var b := inodes[i].addrs[NDIRECT]; b != 0 ==>
      b in owner && owner[b] == Table(i) && sb.datastart <= b < sb.size
  {
  }

  lemma AllocSameTables(blocks: seq<Block>, inodes: seq<Inode>, owner: map<int, Ref>, sb: Super, r: int)
    requires Owned(blocks, inodes, owner, sb) && 0 <= r < sb.size && r !in owner
    ensures sb.datastart <= r && 0 <= BBlock(sb, r) < sb.datastart && HasBit(blocks[BBlock(sb, r)], r % BPB)
    ensures SameTables(blocks, Alloc(blocks, sb, r), inodes)
  {
    MarkBitAt(blocks, sb, r, true, r);
    forall i | 0 <= i < |inodes|
      ensures var b := inodes[i].addrs[NDIRECT]; 0 < b < |blocks| ==> Alloc(blocks, sb, r)[b] == blocks[b]
    {
      TableIsOwned(blocks, inodes, owner, sb, -1, 0, i);
    }
  }

  lemma AllocBits(blocks: seq<Block>, inodes: seq<Inode>, owner: map<int, Ref>, sb: Super, r: int)
    requires Owned(blocks, inodes, owner, sb) && 0 <= r < sb.size && r !in owner
    ensures sb.datastart <= r && 0 <= BBlock(sb, r) < sb.datastart && HasBit(blocks[BBlock(sb, r)], r % BPB)
    ensures Shape(Alloc(blocks, sb, r), sb) && Bits(Alloc(blocks, sb, r), sb, owner, r)
  {
    MarkBitAt(blocks, sb, r, true, r);
    forall c | 0 <= c < sb.size
      ensures InUse(Alloc(blocks, sb, r), sb, c) <==> c in owner || c == r
    {
      MarkBitAt(blocks, sb, r, true, c);
      assert c / BPB <= (sb.size - 1) / BPB;
    }
  }

  /** A fresh block disturbs nobody, and it is a data block. */
  lemma AllocKeeps(blocks: seq<Block>, inodes: seq<Inode>, owner: map<int, Ref>, sb: Super, r: int)
    requires Owned(blocks, inodes, owner, sb) && 0 <= r < sb.size && r !in owner
    ensures sb.datastart <= r && 0 <= BBlock(sb, r) < sb.datastart && HasBit(blocks[BBlock(sb, r)], r % BPB)
    ensures InTransit(Alloc(blocks, sb, r), inodes, owner, sb, r)
    ensures forall i, bn :: 0 <= i < |inodes| && 0 <= bn < MAXFILE ==>
      BlockOf(Alloc(blocks, sb, r), inodes[i], bn) == BlockOf(blocks, inodes[i], bn)
  {
    AllocBits(blocks, inodes, owner, sb, r);
    AllocSameTables(blocks, inodes, owner, sb, r);
    SameTablesSameFiles(blocks, Alloc(blocks, sb, r), inodes, owner, sb, -1, 0);
  }

  function SetAddr(inodes: seq<Inode>, i: int, k: int, b: int): (r: seq<Inode>)
    requires 0 <= i < |inodes| && 0 <= k < |inodes[i].addrs|
  {
    inodes[i := inodes[i].(addrs := inodes[i].addrs[k := b])]
  }

  lemma GiveDirect(blocks: seq<Block>, inodes: seq<Inode>, owner: map<int, Ref>, sb: Super, r: int, i: int, bn: int)
    requires InTransit(blocks, inodes, owner, sb, r) && sb.datastart <= r < sb.size && r !in owner
    requires 0 <= i < |inodes| && 0 <= bn < NDIRECT && inodes[i].addrs[bn] == 0
    ensures Owned(blocks, SetAddr(inodes, i, bn, r), owner[r := Data(i, bn)], sb)
  {
    var inodes', owner' := SetAddr(inodes, i, bn, r), owner[r := Data(i, bn)];
    forall k, n | 0 <= k < |inodes| && 0 <= n < MAXFILE
      ensures BlockOf(blocks, inodes'[k], n) == if k == i && n == bn then r else BlockOf(blocks, inodes[k], n)
    {
    }
  }

  lemma EmptyTable(blocks: seq<Block>, r: int, j: int)
    requires 0 < r < |blocks| && blocks[r] == ZeroBlock()
    ensures Entry(blocks, r, j) == 0
  {
    if 0 <= j < WORDS {
      ZeroBlockWords(j);
    }
  }

  lemma GiveTable(blocks: seq<Block>, inodes: seq<Inode>, owner: map<int, Ref>, sb: Super, r: int, i: int)
    requires InTransit(blocks, inodes, owner, sb, r) && sb.datastart <= r < sb.size && r !in owner
    requires 0 <= i < |inodes| && inodes[i].addrs[NDIRECT] == 0 && blocks[r] == ZeroBlock()
    ensures Owned(blocks, SetAddr(inodes, i, NDIRECT, r), owner[r := Table(i)], sb)
    ensures forall k, n :: 0 <= k < |inodes| && 0 <= n < MAXFILE ==>
      BlockOf(blocks, SetAddr(inodes, i, NDIRECT, r)[k], n) == BlockOf(blocks, inodes[k], n)
  {
    var inodes' := SetAddr(inodes, i, NDIRECT, r);
    forall k, n | 0 <= k < |inodes| && 0 <= n < MAXFILE
      ensures BlockOf(blocks, inodes'[k], n) == BlockOf(blocks, inodes[k], n)
    {
      EmptyTable(blocks, r, n - NDIRECT);
    }
  }

  /** Storing a new entry in inode i's table. */
  function SetEntry(blocks: seq<Block>, t: int, j: int, v: int): (r: seq<Block>)
    requires 0 < t < |blocks| && 0 <= j && 4 * j + 3 < |blocks[t].bytes|
  {
    blocks[t := PutWord(blocks[t], j, v)]
  }

  lemma SetEntryAt(blocks: seq<Block>, t: int, j: int, v: int, b: int, n: int)
    requires 0 < t < |blocks| && 0 <= j && 4 * j + 3 < |blocks[t].bytes| && 0 <= v < TWO32
    ensures Entry(SetEntry(blocks, t, j, v), b, n) == if b == t && n == j then v else Entry(blocks, b, n)
  {
    if b == t && 0 <= 4 * n && 4 * n + 3 < |blocks[b].bytes| {
      GetPutWord(blocks[t], j, v, n);
    }
  }

  lemma SetEntryBits(blocks: seq<Block>, owner: map<int, Ref>, sb: Super, transit: int, t: int, j: int, v: int)
    requires Shape(blocks, sb) && Bits(blocks, sb, owner, transit) && sb.datastart <= t < sb.size
    requires 0 <= j < WORDS
    ensures Sized(blocks[t]) && Shape(SetEntry(blocks, t, j, v), sb)
    ensures Bits(SetEntry(blocks, t, j, v), sb, owner, transit)
  {
    assert Sized(blocks[t]);
    PutWordSized(blocks[t], j, v);
    forall c | 0 <= c < sb.size ensures InUse(SetEntry(blocks, t, j, v), sb, c) <==> InUse(blocks, sb, c) {
      assert c / BPB <= (sb.size - 1) / BPB;
    }
  }

  /** Only the j-th entry of inode i's own table is touched. */
  lemma SetEntryFiles(blocks: seq<Block>, inodes: seq<Inode>, owner: map<int, Ref>, sb: Super, i: int, j: int, v: int)
    requires Shape(blocks, sb) && Inodes(inodes) && Mapped(blocks, inodes, owner, -1, 0)
    requires Backed(blocks, inodes, owner, sb)
    requires 0 <= i < |inodes| && 0 <= j < WORDS && inodes[i].addrs[NDIRECT] != 0 && 0 <= v < TWO32
    ensures var t := inodes[i].addrs[NDIRECT];
      && sb.datastart <= t < |blocks| && Sized(blocks[t])
      && forall k, n :: 0 <= k < |inodes| && 0 <= n < MAXFILE ==>
           BlockOf(SetEntry(blocks, t, j, v), inodes[k], n) == if k == i && n == NDIRECT + j then v
             else BlockOf(blocks, inodes[k], n)
  {
    var t := inodes[i].addrs[NDIRECT];
    TableIsOwned(blocks, inodes, owner, sb, -1, 0, i);
    assert Sized(blocks[t]);
    forall k, n | 0 <= k < |inodes| && 0 <= n < MAXFILE
      ensures BlockOf(SetEntry(blocks, t, j, v), inodes[k], n) == if k == i && n == NDIRECT + j then v
        else BlockOf(blocks, inodes[k], n)
    {
      TableIsOwned(blocks, inodes, owner, sb, -1, 0, k);
      SetEntryAt(blocks, t, j, v, inodes[k].addrs[NDIRECT], n - NDIRECT);
    }
  }

  lemma GiveEntry(blocks: seq<Block>, inodes: seq<Inode>, owner: map<int, Ref>, sb: Super, r: int, i: int, j: int)
    requires InTransit(blocks, inodes, owner, sb, r) && sb.datastart <= r < sb.size && r !in owner
    requires 0 <= i < |inodes| && 0 <= j < WORDS && inodes[i].addrs[NDIRECT] != 0
    requires Entry(blocks, inodes[i].addrs[NDIRECT], j) == 0
    ensures var t := inodes[i].addrs[NDIRECT];
      && 0 < t < |blocks| && Sized(blocks[t])
      && Owned(SetEntry(blocks, t, j, r), inodes, owner[r := Data(i, NDIRECT + j)], sb)
  {
    SetEntryFiles(blocks, inodes, owner, sb, i, j, r);
    SetEntryBits(blocks, owner, sb, r, inodes[i].addrs[NDIRECT], j, r);
  }

  // ---------- bfree, and taking an inode's blocks away one by one ----------

  /** itrunc in progress on inode t: `done` table entries are freed but still in the table. */
  ghost predicate Truncating(blocks: seq<Block>, inodes: seq<Inode>, owner: map<int, Ref>, sb: Super, t: int, done: int)
  {
    && Shape(blocks, sb) && Inodes(inodes)
    && Bits(blocks, sb, owner, -1)
    && Mapped(blocks, inodes, owner, t, done)
    && Backed(blocks, inodes, owner, sb)
    && MetaOwned(owner, sb)
    && Released(owner, t, done)
  }

  /** Nothing is owned by the first `done` table entries of inode t. */
  ghost predicate Released(owner: map<int, Ref>, t: int, done: int) {
    forall b :: b in owner ==> !(owner[b].Data? && owner[b].i == t && NDIRECT <= owner[b].bn < NDIRECT + done)
  }

  lemma FreeSameTables(blocks: seq<Block>, inodes: seq<Inode>, owner: map<int, Ref>, sb: Super, t: int, done: int,
      b: int)
    requires Shape(blocks, sb) && Inodes(inodes) && Mapped(blocks, inodes, owner, t, done)
    requires Backed(blocks, inodes, owner, sb)
    requires 0 <= b < sb.size
    ensures 0 <= BBlock(sb, b) < sb.datastart && HasBit(blocks[BBlock(sb, b)], b % BPB)
    ensures SameTables(blocks, MarkBit(blocks, sb, b, false), inodes)
  {
    MarkBitAt(blocks, sb, b, false, b);
    forall i | 0 <= i < |inodes|
      ensures var c := inodes[i].addrs[NDIRECT]; 0 < c < |blocks| ==> MarkBit(blocks, sb, b, false)[c] == blocks[c]
    {
      TableIsOwned(blocks, inodes, owner, sb, t, done, i);
    }
  }

  lemma FreeBits(blocks: seq<Block>, owner: map<int, Ref>, sb: Super, b: int)
    requires Shape(blocks, sb) && Bits(blocks, sb, owner, -1) && b in owner && 0 <= b < sb.size
    ensures 0 <= BBlock(sb, b) < sb.datastart && HasBit(blocks[BBlock(sb, b)], b % BPB)
    ensures InUse(blocks, sb, b)
    ensures Shape(MarkBit(blocks, sb, b, false), sb)
    ensures Bits(MarkBit(blocks, sb, b, false), sb, owner - {b}, -1)
  {
    MarkBitAt(blocks, sb, b, false, b);
    forall c | 0 <= c < sb.size
      ensures InUse(MarkBit(blocks, sb, b, false), sb, c) <==> c in owner - {b}
    {
      MarkBitAt(blocks, sb, b, false, c);
    }
  }

  /** Clearing a direct slot gives up its block. */
  lemma ForgetSlot(blocks: seq<Block>, inodes: seq<Inode>, owner: map<int, Ref>, sb: Super, i: int, bn: int)
    requires Inodes(inodes) && Mapped(blocks, inodes, owner, -1, 0) && Backed(blocks, inodes, owner, sb)
    requires 0 <= i < |inodes| && 0 <= bn < NDIRECT && inodes[i].addrs[bn] != 0
    ensures var b, in1 := inodes[i].addrs[bn], SetAddr(inodes, i, bn, 0);
      && Inodes(in1) && Mapped(blocks, in1, owner - {b}, -1, 0) && Backed(blocks, in1, owner - {b}, sb)
  {
    var b, in1 := inodes[i].addrs[bn], SetAddr(inodes, i, bn, 0);
    assert BlockOf(blocks, inodes[i], bn) == b;
    forall k, n | 0 <= k < |inodes| && 0 <= n < MAXFILE
      ensures BlockOf(blocks, in1[k], n) == if k == i && n == bn then 0 else BlockOf(blocks, inodes[k], n)
    {
    }
  }

  lemma ForgetTable(blocks: seq<Block>, inodes: seq<Inode>, owner: map<int, Ref>, sb: Super, i: int)
    requires Inodes(inodes) && Mapped(blocks, inodes, owner, i, WORDS) && Backed(blocks, inodes, owner, sb)
    requires 0 <= i < |inodes| && inodes[i].addrs[NDIRECT] != 0 && Released(owner, i, WORDS)
    ensures var b, in1 := inodes[i].addrs[NDIRECT], SetAddr(inodes, i, NDIRECT, 0);
      && Inodes(in1) && Mapped(blocks, in1, owner - {b}, -1, 0) && Backed(blocks, in1, owner - {b}, sb)
  {
    var in1 := SetAddr(inodes, i, NDIRECT, 0);
    forall k, n | 0 <= k < |inodes| && 0 <= n < MAXFILE
      ensures BlockOf(blocks, in1[k], n) == if k == i && NDIRECT <= n then 0 else BlockOf(blocks, inodes[k], n)
    {
    }
  }

  /** Freeing a direct block and clearing its slot. */
  lemma DropDirect(blocks: seq<Block>, inodes: seq<Inode>, owner: map<int, Ref>, sb: Super, i: int, bn: int)
    requires Owned(blocks, inodes, owner, sb) && 0 <= i < |inodes| && 0 <= bn < NDIRECT
    requires inodes[i].addrs[bn] != 0
    ensures var b := inodes[i].addrs[bn];
      && b in owner && owner[b] == Data(i, bn) && 0 <= b < sb.size && InUse(blocks, sb, b)
      && Owned(MarkBit(blocks, sb, b, false), SetAddr(inodes, i, bn, 0), owner - {b}, sb)
  {
    var b := inodes[i].addrs[bn];
    assert BlockOf(blocks, inodes[i], bn) == b;
    FreeBits(blocks, owner, sb, b);
    FreeSameTables(blocks, inodes, owner, sb, -1, 0, b);
    SameTablesSameFiles(blocks, MarkBit(blocks, sb, b, false), inodes, owner, sb, -1, 0);
    ForgetSlot(MarkBit(blocks, sb, b, false), inodes, owner, sb, i, bn);
  }

  /** An empty entry needs no freeing. */
  lemma SkipEntry(blocks: seq<Block>, inodes: seq<Inode>, owner: map<int, Ref>, sb: Super, i: int, j: int)
    requires Truncating(blocks, inodes, owner, sb, i, j) && 0 <= i < |inodes| && 0 <= j < WORDS
    requires Entry(blocks, inodes[i].addrs[NDIRECT], j) == 0
    ensures Truncating(blocks, inodes, owner, sb, i, j + 1)
  {
    assert BlockOf(blocks, inodes[i], NDIRECT + j) == 0;
  }

  /** Freeing one entry of the table; the table itself is left as it is. */
  lemma DropEntry(blocks: seq<Block>, inodes: seq<Inode>, owner: map<int, Ref>, sb: Super, i: int, j: int)
    requires Truncating(blocks, inodes, owner, sb, i, j) && 0 <= i < |inodes| && 0 <= j < WORDS
    requires Entry(blocks, inodes[i].addrs[NDIRECT], j) != 0
    ensures var b := Entry(blocks, inodes[i].addrs[NDIRECT], j);
      && b in owner && owner[b] == Data(i, NDIRECT + j) && 0 <= b < sb.size && InUse(blocks, sb, b)
      && SameTables(blocks, MarkBit(blocks, sb, b, false), inodes)
      && Truncating(MarkBit(blocks, sb, b, false), inodes, owner - {b}, sb, i, j + 1)
  {
    var b := Entry(blocks, inodes[i].addrs[NDIRECT], j);
    assert b == BlockOf(blocks, inodes[i], NDIRECT + j);
    FreeBits(blocks, owner, sb, b);
    FreeSameTables(blocks, inodes, owner, sb, i, j, b);
    SameTablesSameFiles(blocks, MarkBit(blocks, sb, b, false), inodes, owner, sb, i, j);
    ForgetBlock(MarkBit(blocks, sb, b, false), inodes, owner, sb, i, j, b);
  }

  lemma ForgetBlock(blocks: seq<Block>, inodes: seq<Inode>, owner: map<int, Ref>, sb: Super, i: int, j: int, b: int)
    requires Inodes(inodes) && Mapped(blocks, inodes, owner, i, j)
    requires Backed(blocks, inodes, owner, sb) && Released(owner, i, j)
    requires 0 <= i < |inodes| && 0 <= j < WORDS && b in owner && owner[b] == Data(i, NDIRECT + j)
    ensures Mapped(blocks, inodes, owner - {b}, i, j + 1) && Backed(blocks, inodes, owner - {b}, sb)
    ensures Released(owner - {b}, i, j + 1)
  {
  }

  /** Freeing the emptied table and clearing its slot. */
  lemma DropTable(blocks: seq<Block>, inodes: seq<Inode>, owner: map<int, Ref>, sb: Super, i: int)
    requires Truncating(blocks, inodes, owner, sb, i, WORDS) && 0 <= i < |inodes|
    requires inodes[i].addrs[NDIRECT] != 0
    ensures var b := inodes[i].addrs[NDIRECT];
      && b in owner && owner[b] == Table(i) && 0 <= b < sb.size && InUse(blocks, sb, b)
      && Owned(MarkBit(blocks, sb, b, false), SetAddr(inodes, i, NDIRECT, 0), owner - {b}, sb)
  {
    var b := inodes[i].addrs[NDIRECT];
    TableIsOwned(blocks, inodes, owner, sb, i, WORDS, i);
    FreeBits(blocks, owner, sb, b);
    FreeSameTables(blocks, inodes, owner, sb, i, WORDS, b);
    SameTablesSameFiles(blocks, MarkBit(blocks, sb, b, false), inodes, owner, sb, i, WORDS);
    ForgetTable(MarkBit(blocks, sb, b, false), inodes, owner, sb, i);
  }

  /** o1 is o0 without the blocks that were the first k of inode i. */
  ghost predicate LessBlocks(o0: map<int, Ref>, o1: map<int, Ref>, i: int, k: int) {
    forall b ::
      && (b in o1 <==> b in o0 && !(o0[b].Data? && o0[b].i == i && o0[b].bn < k))
      && (b in o1 ==> o1[b] == o0[b])
  }

  lemma LessOne(o0: map<int, Ref>, o1: map<int, Ref>, i: int, k: int, b: int)
    requires LessBlocks(o0, o1, i, k) && b in o1 && o1[b] == Data(i, k)
    requires forall c :: c in o1 && o1[c] == Data(i, k) ==> c == b
    ensures LessBlocks(o0, o1 - {b}, i, k + 1)
  {
  }

  lemma LessNone(o0: map<int, Ref>, o1: map<int, Ref>, i: int, k: int)
    requires LessBlocks(o0, o1, i, k) && forall c :: c in o1 ==> o1[c] != Data(i, k)
    ensures LessBlocks(o0, o1, i, k + 1)
  {
  }

  /** A place refers to one block only. */
  lemma OnePlaceOneBlock(blocks: seq<Block>, inodes: seq<Inode>, owner: map<int, Ref>, sb: Super, i: int, k: int,
      c: int)
    requires GoodSuper(sb) && Inodes(inodes) && Backed(blocks, inodes, owner, sb) && 0 <= i < |inodes|
    requires c in owner && owner[c] == Data(i, k)
    ensures c == BlockOf(blocks, inodes[i], k) && c != 0
  {
  }

  predicate BelongsTo(ref: Ref, i: int) {
    (ref.Data? && ref.i == i) || ref == Table(i)
  }

  /** o1 is o0 without the blocks of inode i. */
  ghost predicate LessInode(o0: map<int, Ref>, o1: map<int, Ref>, i: int) {
    forall b ::
      && (b in o1 <==> b in o0 && !BelongsTo(o0[b], i))
      && (b in o1 ==> o1[b] == o0[b])
  }

  /** With its slots all clear an inode owns nothing. */
  lemma NothingLeft(blocks: seq<Block>, inodes: seq<Inode>, owner: map<int, Ref>, sb: Super, o0: map<int, Ref>, i: int)
    requires GoodSuper(sb) && Inodes(inodes) && Backed(blocks, inodes, owner, sb) && 0 <= i < |inodes|
    requires LessBlocks(o0, owner, i, NDIRECT) && inodes[i].addrs[NDIRECT] == 0
    ensures LessInode(o0, owner, i)
  {
    forall b | b in owner ensures !BelongsTo(owner[b], i) {
      if owner[b].Data? && owner[b].i == i {
        OnePlaceOneBlock(blocks, inodes, owner, sb, i, owner[b].bn, b);
      }
    }
  }

  lemma TableGone(blocks: seq<Block>, inodes: seq<Inode>, owner: map<int, Ref>, sb: Super, o0: map<int, Ref>,
      i: int, t: int)
    requires GoodSuper(sb) && Inodes(inodes) && Backed(blocks, inodes, owner, sb) && 0 <= i < |inodes|
    requires LessBlocks(o0, owner, i, MAXFILE) && t == inodes[i].addrs[NDIRECT] && t in owner
    requires owner[t] == Table(i)
    ensures LessInode(o0, owner - {t}, i)
  {
    forall b | b in owner && BelongsTo(owner[b], i) ensures b == t {
      assert owner[b] == Table(i);
    }
  }

  // ---------- what ownership means ----------

  /** The place ref refers to block b. */
  predicate RefersTo(blocks: seq<Block>, inodes: seq<Inode>, ref: Ref, b: int)
    requires Inodes(inodes)
  {
    match ref
    case Meta => false
    case Data(i, bn) => 0 <= i < |inodes| && 0 <= bn < MAXFILE && BlockOf(blocks, inodes[i], bn) == b
    case Table(i) => 0 <= i < |inodes| && inodes[i].addrs[NDIRECT] == b
  }

  /** A data block is marked in use exactly when some slot or table entry refers to it, and never do two. */
  lemma OneReferenceEach(blocks: seq<Block>, inodes: seq<Inode>, owner: map<int, Ref>, sb: Super, b: int)
    requires Owned(blocks, inodes, owner, sb) && sb.datastart <= b < sb.size
    ensures InUse(blocks, sb, b) <==> exists ref :: RefersTo(blocks, inodes, ref, b)
    ensures forall r1, r2 :: RefersTo(blocks, inodes, r1, b) && RefersTo(blocks, inodes, r2, b) ==> r1 == r2
  {
    forall ref | RefersTo(blocks, inodes, ref, b) ensures b in owner && owner[b] == ref {
    }
    if InUse(blocks, sb, b) {
      assert b in owner;
      assert RefersTo(blocks, inodes, owner[b], b);
    }
  }
}
