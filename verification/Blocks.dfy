/** Disk blocks as bytes, with the little-endian 32-bit words that kernel structures store in them. */
module Blocks {
  import opened Basics

  const BSIZE: nat := 1024
  const WORDS: nat := 256            // 32-bit words in a block
  const MAXOPBLOCKS: nat := 10    // the blocks an operation may log

  datatype Block = Block(bytes: seq<int>)

  predicate IsByte(x: int) {
    0 <= x < 256
  }

  /** The shape of every block the kernel handles. */
  ghost predicate Sized(b: Block) {
    |b.bytes| == BSIZE && forall i :: 0 <= i < BSIZE ==> IsByte(b.bytes[i])
  }

  /** What memset(data, 0, BSIZE) leaves. */
  function ZeroBlock(): (b: Block)
    ensures |b.bytes| == BSIZE && forall i :: 0 <= i < BSIZE ==> b.bytes[i] == 0
  {
    Block(seq(BSIZE, _ => 0))
  }

  function GetWord(b: Block, j: nat): (v: int)
    requires 4 * j + 3 < |b.bytes|
  {
    b.bytes[4*j] + 0x100 * b.bytes[4*j+1] + 0x1_0000 * b.bytes[4*j+2] + 0x100_0000 * b.bytes[4*j+3]
  }

  function PutWord(b: Block, j: nat, v: int): (r: Block)
    requires 4 * j + 3 < |b.bytes|
    ensures |r.bytes| == |b.bytes|
  {
    Block(b.bytes[4*j := v % 0x100][4*j+1 := v / 0x100 % 0x100]
                 [4*j+2 := v / 0x1_0000 % 0x100][4*j+3 := v / 0x100_0000 % 0x100])
  }

  lemma WordBytes(v: int)
    requires 0 <= v < TWO32
    ensures v == v % 0x100 + 0x100 * (v / 0x100 % 0x100) + 0x1_0000 * (v / 0x1_0000 % 0x100)
      + 0x100_0000 * (v / 0x100_0000 % 0x100)
  {
    assert v / 0x1_0000 == v / 0x100 / 0x100;
    assert v / 0x100_0000 == v / 0x1_0000 / 0x100;
  }

  /** A stored word reads back, and no other word of the block changes. */
  lemma GetPutWord(b: Block, j: nat, v: int, k: nat)
    requires 4 * j + 3 < |b.bytes| && 4 * k + 3 < |b.bytes| && 0 <= v < TWO32
    ensures GetWord(PutWord(b, j, v), k) == if k == j then v else GetWord(b, k)
  {
    WordBytes(v);
  }

  lemma PutWordSized(b: Block, j: nat, v: int)
    requires Sized(b) && j < WORDS
    ensures Sized(PutWord(b, j, v))
  {
  }

  lemma ZeroBlockWords(j: nat)
    requires j < WORDS
    ensures GetWord(ZeroBlock(), j) == 0
  {
  }

  lemma TakeOneMore<T>(s: seq<T>, k: nat)
    requires k < |s|
    ensures s[..k+1] == s[..k] + [s[k]]
  {
  }

  lemma TakeAll<T>(s: seq<T>)
    ensures s[..|s|] == s
  {
  }
}
