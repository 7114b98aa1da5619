/** The free bitmap of kernel/fs.c: one bit per block, eight to a byte, BPB to a bitmap block. */
module Bitmap {
  import opened Blocks

  const BPB: nat := 8192

  /** (x >> k) & 1. */
  predicate Bit(x: nat, k: nat) {
    if k == 0 then x % 2 == 1 else Bit(x / 2, k - 1)
  }

  /** x with bit k replaced: x | (1 << k) or x & ~(1 << k). */
  function WithBit(x: nat, k: nat, on: bool): (r: nat) {
    if k == 0 then x / 2 * 2 + (if on then 1 else 0) else WithBit(x / 2, k - 1, on) * 2 + x % 2
  }

  function Pow2(n: nat): (p: nat) {
    if n == 0 then 1 else 2 * Pow2(n - 1)
  }

  lemma {:induction false} WithBitAt(x: nat, k: nat, on: bool, j: nat)
    ensures Bit(WithBit(x, k, on), j) == if j == k then on else Bit(x, j)
  {
    if k > 0 && j > 0 {
      WithBitAt(x / 2, k - 1, on, j - 1);
    }
  }

  lemma {:induction false} WithBitRange(x: nat, k: nat, on: bool, n: nat)
    requires x < Pow2(n) && k < n
    ensures WithBit(x, k, on) < Pow2(n)
  {
    if k > 0 {
      assert Pow2(n) == 2 * Pow2(n - 1) && x / 2 < Pow2(n - 1);
      WithBitRange(x / 2, k - 1, on, n - 1);
    }
  }

  lemma ByteIsEightBits(x: int)
    ensures IsByte(x) <==> 0 <= x < Pow2(8)
  {
    assert Pow2(8) == 2 * 2 * 2 * 2 * Pow2(4);
    assert Pow2(4) == 16;
  }

  /** The bytes of bitmap blocks are bytes. */
  predicate HasBit(b: Block, bi: nat) {
    bi / 8 < |b.bytes| && IsByte(b.bytes[bi / 8])
  }

  predicate GetBit(b: Block, bi: nat)
    requires HasBit(b, bi)
  {
    Bit(b.bytes[bi / 8], bi % 8)
  }

  function PutBit(b: Block, bi: nat, on: bool): (r: Block)
    requires HasBit(b, bi)
  {
    Block(b.bytes[bi / 8 := WithBit(b.bytes[bi / 8], bi % 8, on)])
  }

  /** Marking or clearing a bit changes that bit and no other. */
  lemma PutBitAt(b: Block, bi: nat, on: bool, bj: nat)
    requires Sized(b) && bi < BPB && bj < BPB
    ensures Sized(PutBit(b, bi, on))
    ensures GetBit(PutBit(b, bi, on), bj) == if bj == bi then on else GetBit(b, bj)
  {
    ByteIsEightBits(b.bytes[bi / 8]);
    WithBitRange(b.bytes[bi / 8], bi % 8, on, 8);
    ByteIsEightBits(WithBit(b.bytes[bi / 8], bi % 8, on));
    WithBitAt(b.bytes[bi / 8], bi % 8, on, bj % 8);
  }
}
