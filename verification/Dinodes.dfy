/** On-disk inodes: sixteen little-endian words each, sixteen to a block
    (struct dinode of kernel/fs.h). */
module Dinodes {
  import opened Params
  import opened Blocks
  import opened Inodes

  const IPB: nat := 16

  /** The fields fit their on-disk width. */
  predicate Storable(ip: Inode) {
    && |ip.head| == 2 && |ip.addrs| == NDIRECT + 1 && ip.size < UINT_RANGE
    && (forall i :: 0 <= i < 2 ==> ip.head[i] < UINT_RANGE)
    && (forall i :: 0 <= i <= NDIRECT ==> ip.addrs[i] < UINT_RANGE)
  }

  function DinodeWord(ip: Inode, i: nat): (w: nat)
    requires Storable(ip) && i < 16
    ensures w < UINT_RANGE
  {
    if i < 2 then ip.head[i] else if i == 2 then ip.size else ip.addrs[i - 3]
  }

  /** The stores of iupdate, word by word. */
  function PutDinode(b: Block, slot: nat, ip: Inode, k: nat): (r: Block)
    requires Storable(ip) && slot < IPB && k <= 16
  {
    if k == 0 then b else PutWord(PutDinode(b, slot, ip, k - 1), 16 * slot + k - 1, DinodeWord(ip, k - 1))
  }

  /** Word `i` of the inode at `slot`. */
  function SlotWord(b: Block, slot: nat, i: nat): (w: nat)
    requires slot < IPB && i < 16
    ensures w < UINT_RANGE
  {
    Word(b, 16 * slot + i)
  }

  /** The loads of ilock. */
  function GetDinode(b: Block, slot: nat): (ip: Inode)
    requires slot < IPB
    ensures Storable(ip) && forall i :: 0 <= i < 16 ==> DinodeWord(ip, i) == SlotWord(b, slot, i)
  {
    var addrs := seq(NDIRECT + 1, i requires 0 <= i <= NDIRECT => SlotWord(b, slot, i + 3));
    Inode([SlotWord(b, slot, 0), SlotWord(b, slot, 1)], SlotWord(b, slot, 2), addrs)
  }

  /** An inode is its sixteen words. */
  lemma DinodeExtensional(x: Inode, y: Inode)
    requires Storable(x) && Storable(y) && forall i :: 0 <= i < 16 ==> DinodeWord(x, i) == DinodeWord(y, i)
    ensures x == y
  {
    assert x.head[0] == DinodeWord(x, 0) && x.head[1] == DinodeWord(x, 1) && x.size == DinodeWord(x, 2);
    assert x.head == y.head;
    forall i | 0 <= i <= NDIRECT ensures x.addrs[i] == y.addrs[i] {
      assert DinodeWord(x, i + 3) == DinodeWord(y, i + 3);
    }
    assert x.addrs == y.addrs;
  }

  lemma {:induction false} PutDinodeWord(b: Block, slot: nat, ip: Inode, k: nat, j: nat)
    requires Storable(ip) && slot < IPB && k <= 16 && j < WORDS
    ensures Word(PutDinode(b, slot, ip, k), j) ==
            if 16 * slot <= j < 16 * slot + k then DinodeWord(ip, j - 16 * slot) else Word(b, j)
  {
    hide Word, PutWord;
    if k > 0 {
      PutDinodeWord(b, slot, ip, k - 1, j);
    }
  }

  /** Where iupdate puts each field, and that it writes nothing else. */
  lemma DinodeLayout(b: Block, slot: nat, ip: Inode, j: nat)
    requires Storable(ip) && slot < IPB && j < WORDS
    ensures Word(PutDinode(b, slot, ip, 16), j) ==
            if j == 16 * slot then ip.head[0]
            else if j == 16 * slot + 1 then ip.head[1]
            else if j == 16 * slot + 2 then ip.size
            else if 16 * slot + 3 <= j < 16 * slot + 16 then ip.addrs[j - 16 * slot - 3]
            else Word(b, j)
  {
    hide Word, PutDinode;
    PutDinodeWord(b, slot, ip, 16, j);
  }

  /** iupdate then ilock gives the inode back. */
  lemma DinodeRoundTrip(b: Block, slot: nat, ip: Inode)
    requires Storable(ip) && slot < IPB
    ensures GetDinode(PutDinode(b, slot, ip, 16), slot) == ip
  {
    hide Word, PutDinode, GetDinode, DinodeWord;
    var r := PutDinode(b, slot, ip, 16);
    forall i | 0 <= i < 16 ensures SlotWord(r, slot, i) == DinodeWord(ip, i) {
      PutDinodeWord(b, slot, ip, 16, 16 * slot + i);
    }
    DinodeExtensional(GetDinode(r, slot), ip);
  }

  /** iupdate leaves the block's other inodes alone. */
  lemma DinodeNeighbour(b: Block, slot: nat, ip: Inode, other: nat)
    requires Storable(ip) && slot < IPB && other < IPB && other != slot
    ensures GetDinode(PutDinode(b, slot, ip, 16), other) == GetDinode(b, other)
  {
    hide Word, PutDinode, GetDinode, DinodeWord;
    var r := PutDinode(b, slot, ip, 16);
    forall i | 0 <= i < 16 ensures SlotWord(r, other, i) == SlotWord(b, other, i) {
      PutDinodeWord(b, slot, ip, 16, 16 * other + i);
    }
    DinodeExtensional(GetDinode(r, other), GetDinode(b, other));
  }

  /** IBLOCK */
  function InodeBlock(sb: Super, ino: nat): (b: nat) { sb.inodestart + ino / IPB }

  /** The on-disk copy of inode `ino` is current. */
  ghost predicate OnDisk(fs: Fs, sb: Super, ino: nat)
    requires ino < |fs.inodes|
  {
    && Storable(fs.inodes[ino])
    && InodeBlock(sb, ino) < sb.bmapstart && InodeBlock(sb, ino) < |fs.blocks|
    && GetDinode(fs.blocks[InodeBlock(sb, ino)], ino % IPB) == fs.inodes[ino]
  }
}
