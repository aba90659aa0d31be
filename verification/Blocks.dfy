/** A disk block is BSIZE bytes. The kernel also reads blocks as little-endian
    32-bit words (the log header, indirect blocks, on-disk inodes) and as bit
    arrays (the free map). */
module Blocks {
  import opened Params

  const WORDS: nat := BSIZE / 4
  const BPB: nat := BSIZE * 8

  type Byte = b: int | 0 <= b < 256
  type Block = b: seq<Byte> | |b| == BSIZE witness seq(BSIZE, _ => 0)

  function ZeroBlock(): (b: Block)
    ensures forall i :: 0 <= i < BSIZE ==> b[i] == 0
  {
    seq(BSIZE, _ => 0)
  }

  function Word(b: Block, i: nat): (w: nat)
    requires i < WORDS
    ensures w < UINT_RANGE
  {
    var b0: int, b1: int, b2: int, b3: int := b[4 * i], b[4 * i + 1], b[4 * i + 2], b[4 * i + 3];
    b0 + 256 * b1 + 65536 * b2 + 16777216 * b3
  }

  /** Store a 32-bit word: it reads back, and no other word moves. */
  function PutWord(b: Block, i: nat, w: nat): (r: Block)
    requires i < WORDS && w < UINT_RANGE
    ensures Word(r, i) == w
    ensures forall j :: 0 <= j < WORDS && j != i ==> Word(r, j) == Word(b, j)
  {
    WordBytes(w);
    b[4 * i := w % 256][4 * i + 1 := w / 256 % 256][4 * i + 2 := w / 65536 % 256][4 * i + 3 := w / 16777216]
  }

  lemma WordBytes(w: nat)
    requires w < UINT_RANGE
    ensures w % 256 + 256 * (w / 256 % 256) + 65536 * (w / 65536 % 256) + 16777216 * (w / 16777216) == w
    ensures w / 16777216 < 256
  {
    assert w / 65536 == w / 256 / 256 && w / 16777216 == w / 65536 / 256;
  }

  /** 1 << k */
  function Mask(k: nat): (m: nat)
    ensures m >= 1
  {
    if k == 0 then 1 else 2 * Mask(k - 1)
  }

  /** (x >> k) & 1 */
  predicate NatBit(x: nat, k: nat) {
    if k == 0 then x % 2 == 1 else NatBit(x / 2, k - 1)
  }

  predicate Bit(b: Block, i: nat)
    requires i < BPB
  {
    NatBit(b[i / 8], i % 8)
  }

  /** Adding a mask to a number that lacks it is `|=`, subtracting one it has
      is `&= ~`: exactly that bit changes. */
  lemma {:induction false} MaskSet(x: nat, k: nat, j: nat)
    requires !NatBit(x, k)
    ensures NatBit(x + Mask(k), j) == (j == k || NatBit(x, j))
  {
    if k > 0 && j > 0 {
      MaskSet(x / 2, k - 1, j - 1);
      assert (x + Mask(k)) / 2 == x / 2 + Mask(k - 1);
    }
  }

  lemma {:induction false} MaskClear(x: nat, k: nat, j: nat)
    requires NatBit(x, k)
    ensures Mask(k) <= x
    ensures NatBit(x - Mask(k), j) == (j != k && NatBit(x, j))
  {
    if k > 0 {
      MaskClear(x / 2, k - 1, if j > 0 then j - 1 else 0);
      assert (x - Mask(k)) / 2 == x / 2 - Mask(k - 1);
    }
  }

  lemma {:induction false} MaskFits(x: nat, k: nat, n: nat)
    requires k < n && x < Mask(n) && !NatBit(x, k)
    ensures x + Mask(k) < Mask(n)
  {
    var top := Mask(n - 1);
    assert Mask(n) == 2 * top;
    if k == 0 {
      assert Mask(k) == 1 && x % 2 == 0;
      hide Mask, NatBit;
    } else {
      var half, m := x / 2, Mask(k - 1);
      assert Mask(k) == 2 * m && !NatBit(half, k - 1);
      MaskFits(half, k - 1, n - 1);
      hide Mask, NatBit;
      assert half + m < top;
      assert x <= 2 * half + 1;
    }
  }

  function SetBit(b: Block, i: nat): (r: Block)
    requires i < BPB && !Bit(b, i)
  {
    MaskFits(b[i / 8], i % 8, 8);
    b[i / 8 := b[i / 8] as int + Mask(i % 8)]
  }

  function ClearBit(b: Block, i: nat): (r: Block)
    requires i < BPB && Bit(b, i)
  {
    MaskClear(b[i / 8], i % 8, 0);
    b[i / 8 := b[i / 8] as int - Mask(i % 8)]
  }

  lemma SetBitAt(b: Block, i: nat, j: nat)
    requires i < BPB && j < BPB && !Bit(b, i)
    ensures Bit(SetBit(b, i), j) == (j == i || Bit(b, j))
  {
    MaskSet(b[i / 8], i % 8, j % 8);
  }

  lemma ClearBitAt(b: Block, i: nat, j: nat)
    requires i < BPB && j < BPB && Bit(b, i)
    ensures Bit(ClearBit(b, i), j) == (j != i && Bit(b, j))
  {
    MaskClear(b[i / 8], i % 8, j % 8);
  }

  /** Overwrite part of a block. */
  function Splice(b: Block, at: nat, bytes: seq<Byte>): (r: Block)
    requires at + |bytes| <= BSIZE
    ensures forall i :: 0 <= i < BSIZE ==>
              r[i] == if at <= i < at + |bytes| then bytes[i - at] else b[i]
  {
    b[..at] + bytes + b[at + |bytes|..]
  }
}
