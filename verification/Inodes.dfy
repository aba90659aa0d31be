/** The block-level meaning of the inode layer (kernel/fs.c): which disk block
    every pointer names, which bitmap bits are set, and what bytes a file holds. */
module Inodes {
  import opened Params
  import opened Blocks

  const NDIRECT: nat := 12
  const NINDIRECT: nat := BSIZE / 4
  const MAXFILE: nat := NDIRECT + NINDIRECT

  /** Where mkfs put things: bitmap and inode blocks lie below `nmeta`, data
      blocks from there up to `size`. */
  datatype Super = Super(size: nat, bmapstart: nat, inodestart: nat, nmeta: nat) {
    predicate Sane() {
      && 0 < inodestart < bmapstart
      && bmapstart + size / BPB < nmeta <= size < UINT_RANGE
    }

    /** BBLOCK */
    function BitmapBlock(b: nat): (n: nat) { bmapstart + b / BPB }

    predicate IsBitmap(c: nat) { 0 < size && bmapstart <= c <= bmapstart + (size - 1) / BPB }
  }

  /** An inode's size and block pointers; the last pointer is the indirect
      block. `head` stands for type, device numbers and link count. */
  datatype Inode = Inode(head: seq<nat>, size: nat, addrs: seq<nat>)

  datatype Fs = Fs(blocks: seq<Block>, inodes: seq<Inode>)

  /** A place that can name a data block. */
  datatype Slot = Direct(ino: nat, k: nat) | IndPtr(ino: nat) | IndEnt(ino: nat, k: nat)

  predicate Shape(fs: Fs, sb: Super) {
    && sb.Sane() && |fs.blocks| == sb.size
    && forall i :: 0 <= i < |fs.inodes| ==>
         |fs.inodes[i].addrs| == NDIRECT + 1 && fs.inodes[i].addrs[NDIRECT] < sb.size
  }

  predicate IsSlot(fs: Fs, s: Slot) {
    && s.ino < |fs.inodes|
    && (s.Direct? ==> s.k < NDIRECT)
    && (s.IndEnt? ==> s.k < NINDIRECT)
  }

  /** The block a slot names, 0 if none. */
  function Value(fs: Fs, sb: Super, s: Slot): (b: nat)
    requires Shape(fs, sb) && IsSlot(fs, s)
  {
    var addrs := fs.inodes[s.ino].addrs;
    match s
    case Direct(_, k) => addrs[k]
    case IndPtr(_) => addrs[NDIRECT]
    case IndEnt(_, k) => if addrs[NDIRECT] == 0 then 0 else Word(fs.blocks[addrs[NDIRECT]], k)
  }

  predicate InUse(fs: Fs, sb: Super, b: nat)
    requires Shape(fs, sb) && b < sb.size
  {
    Bit(fs.blocks[sb.BitmapBlock(b)], b % BPB)
  }

  // ----- the allocation invariant -----

  /** `ow` names, for every owned block, the one slot that names it. `loose`
      blocks are marked in use but named by no slot: between balloc and the
      store of its result, or while itrunc lets go of them. */
  ghost predicate Allocated(fs: Fs, sb: Super, ow: map<nat, Slot>, loose: set<nat>) {
    && Shape(fs, sb)
    && (forall s :: IsSlot(fs, s) && Value(fs, sb, s) != 0 ==>
          Value(fs, sb, s) in ow && ow[Value(fs, sb, s)] == s)
    && (forall b :: b in ow ==> sb.nmeta <= b < sb.size && IsSlot(fs, ow[b]) && Value(fs, sb, ow[b]) == b)
    && (forall b :: b in loose ==> sb.nmeta <= b < sb.size && b !in ow)
    && (forall b :: 0 <= b < sb.size ==>
          (InUse(fs, sb, b) <==> b < sb.nmeta || b in ow || b in loose))
  }

  /** The promise in the source's terms: a bit is set iff the block is metadata
      or exactly one slot of all inodes names it. */
  lemma BitmapExact(fs: Fs, sb: Super, ow: map<nat, Slot>, b: nat)
    requires Allocated(fs, sb, ow, {}) && b < sb.size && b != 0
    ensures InUse(fs, sb, b) <==> b < sb.nmeta || exists s :: IsSlot(fs, s) && Value(fs, sb, s) == b
    ensures forall s, t :: IsSlot(fs, s) && IsSlot(fs, t) && Value(fs, sb, s) == b == Value(fs, sb, t) ==> s == t
    ensures forall s :: IsSlot(fs, s) && Value(fs, sb, s) == b ==> b >= sb.nmeta
  {
    if b in ow {
      assert Value(fs, sb, ow[b]) == b;
    }
  }

  // ----- the four moves of the allocator -----

  /** balloc's effect: the bit set, the block zeroed. */
  function MarkUsed(fs: Fs, sb: Super, b: nat): (r: Fs)
    requires Shape(fs, sb) && b < sb.size && !InUse(fs, sb, b)
  {
    var m := sb.BitmapBlock(b);
    fs.(blocks := fs.blocks[m := SetBit(fs.blocks[m], b % BPB)][b := ZeroBlock()])
  }

  /** bfree's effect. */
  function MarkFree(fs: Fs, sb: Super, b: nat): (r: Fs)
    requires Shape(fs, sb) && b < sb.size && InUse(fs, sb, b)
  {
    var m := sb.BitmapBlock(b);
    fs.(blocks := fs.blocks[m := ClearBit(fs.blocks[m], b % BPB)])
  }

  lemma BitmapDistinct(sb: Super, b: nat, c: nat)
    requires sb.Sane() && b < sb.size && c < sb.size
    ensures sb.BitmapBlock(b) < sb.nmeta && sb.BitmapBlock(c) < sb.nmeta
    ensures b != c && sb.BitmapBlock(b) == sb.BitmapBlock(c) ==> b % BPB != c % BPB
  {}

  lemma MarkUsedBit(fs: Fs, sb: Super, b: nat, c: nat)
    requires Shape(fs, sb) && b < sb.size && c < sb.size && !InUse(fs, sb, b) && sb.nmeta <= b
    ensures Shape(MarkUsed(fs, sb, b), sb)
    ensures InUse(MarkUsed(fs, sb, b), sb, c) <==> c == b || InUse(fs, sb, c)
  {
    if b != c {
      BitmapDistinct(sb, b, c);
    }
    SetBitAt(fs.blocks[sb.BitmapBlock(b)], b % BPB, c % BPB);
  }

  lemma MarkFreeBit(fs: Fs, sb: Super, b: nat, c: nat)
    requires Shape(fs, sb) && b < sb.size && c < sb.size && InUse(fs, sb, b)
    ensures Shape(MarkFree(fs, sb, b), sb)
    ensures InUse(MarkFree(fs, sb, b), sb, c) <==> c != b && InUse(fs, sb, c)
  {
    if b != c {
      BitmapDistinct(sb, b, c);
    }
    ClearBitAt(fs.blocks[sb.BitmapBlock(b)], b % BPB, c % BPB);
  }

  /** Blocks above the metadata other than `b` are untouched by balloc(b). */
  lemma MarkUsedData(fs: Fs, sb: Super, b: nat, c: nat)
    requires Shape(fs, sb) && b < sb.size && !InUse(fs, sb, b) && sb.nmeta <= c < sb.size && c != b
    ensures MarkUsed(fs, sb, b).blocks[c] == fs.blocks[c]
  {
    BitmapDistinct(sb, b, c);
  }

  lemma MarkUsedLow(fs: Fs, sb: Super, b: nat, c: nat)
    requires Shape(fs, sb) && sb.nmeta <= b < sb.size && !InUse(fs, sb, b) && c < sb.bmapstart
    ensures MarkUsed(fs, sb, b).blocks[c] == fs.blocks[c]
  {
    BitmapDistinct(sb, b, c);
  }

  lemma AllocMove(fs: Fs, sb: Super, ow: map<nat, Slot>, loose: set<nat>, b: nat)
    requires Allocated(fs, sb, ow, loose) && b < sb.size && !InUse(fs, sb, b)
    ensures Allocated(MarkUsed(fs, sb, b), sb, ow, loose + {b})
    ensures forall s :: IsSlot(fs, s) ==> Value(MarkUsed(fs, sb, b), sb, s) == Value(fs, sb, s)
  {
    hide Word, SetBit, ZeroBlock, Bit;
    var r := MarkUsed(fs, sb, b);
    forall c | 0 <= c < sb.size ensures InUse(r, sb, c) <==> c == b || InUse(fs, sb, c) {
      MarkUsedBit(fs, sb, b, c);
    }
    forall s | IsSlot(fs, s) ensures Value(r, sb, s) == Value(fs, sb, s) {
      IndirectOwned(fs, sb, ow, loose, s.ino);
      if s.IndEnt? && fs.inodes[s.ino].addrs[NDIRECT] != 0 {
        MarkUsedData(fs, sb, b, fs.inodes[s.ino].addrs[NDIRECT]);
      }
    }
  }

  /** An inode's indirect block is a data block in use. */
  lemma IndirectOwned(fs: Fs, sb: Super, ow: map<nat, Slot>, loose: set<nat>, ino: nat)
    requires Allocated(fs, sb, ow, loose) && ino < |fs.inodes|
    ensures var p := fs.inodes[ino].addrs[NDIRECT];
            p != 0 ==> p in ow && ow[p] == IndPtr(ino) && sb.nmeta <= p && InUse(fs, sb, p)
  {
    assert Value(fs, sb, IndPtr(ino)) == fs.inodes[ino].addrs[NDIRECT];
  }

  lemma FreeMove(fs: Fs, sb: Super, ow: map<nat, Slot>, loose: set<nat>, b: nat)
    requires Allocated(fs, sb, ow, loose) && b in loose
    ensures InUse(fs, sb, b) && Allocated(MarkFree(fs, sb, b), sb, ow, loose - {b})
    ensures forall s :: IsSlot(fs, s) ==> Value(MarkFree(fs, sb, b), sb, s) == Value(fs, sb, s)
  {
    hide Word, ClearBit, Bit;
    var r := MarkFree(fs, sb, b);
    forall c | 0 <= c < sb.size ensures InUse(r, sb, c) <==> c != b && InUse(fs, sb, c) {
      MarkFreeBit(fs, sb, b, c);
    }
    forall s | IsSlot(fs, s) ensures Value(r, sb, s) == Value(fs, sb, s) {
      IndirectOwned(fs, sb, ow, loose, s.ino);
      BitmapDistinct(sb, b, fs.inodes[s.ino].addrs[NDIRECT]);
    }
  }

  function SetAddr(fs: Fs, ino: nat, k: nat, b: nat): (r: Fs)
    requires ino < |fs.inodes| && k < |fs.inodes[ino].addrs|
  {
    var ip := fs.inodes[ino];
    fs.(inodes := fs.inodes[ino := ip.(addrs := ip.addrs[k := b])])
  }

  /** Only `slot` changed its value, to `b`. */
  ghost predicate Rebound(fs: Fs, r: Fs, sb: Super, slot: Slot, b: nat) {
    && Shape(fs, sb) && Shape(r, sb) && |r.inodes| == |fs.inodes|
    && forall s :: IsSlot(fs, s) ==> Value(r, sb, s) == if s == slot then b else Value(fs, sb, s)
  }

  /** A loose block becomes owned by the empty slot that now names it. */
  lemma AttachMove(fs: Fs, r: Fs, sb: Super, ow: map<nat, Slot>, loose: set<nat>, slot: Slot, b: nat)
    requires Allocated(fs, sb, ow, loose) && b in loose && IsSlot(fs, slot) && Value(fs, sb, slot) == 0
    requires Rebound(fs, r, sb, slot, b)
    requires forall c :: 0 <= c < sb.nmeta ==> r.blocks[c] == fs.blocks[c]
    ensures Allocated(r, sb, ow[b := slot], loose - {b})
  {
    hide Value, Word, Bit;
    forall c | 0 <= c < sb.size ensures InUse(r, sb, c) == InUse(fs, sb, c) {
      BitmapDistinct(sb, c, c);
    }
  }

  /** An owned block becomes loose when its slot is emptied. */
  lemma DetachMove(fs: Fs, r: Fs, sb: Super, ow: map<nat, Slot>, loose: set<nat>, slot: Slot)
    requires Allocated(fs, sb, ow, loose) && IsSlot(fs, slot) && Value(fs, sb, slot) != 0
    requires Rebound(fs, r, sb, slot, 0) && r.blocks == fs.blocks
    ensures Allocated(r, sb, ow - {Value(fs, sb, slot)}, loose + {Value(fs, sb, slot)})
  {
    hide Value, Word, Bit;
    forall c | 0 <= c < sb.size ensures InUse(r, sb, c) == InUse(fs, sb, c) {
      BitmapDistinct(sb, c, c);
    }
  }

  lemma SetDirect(fs: Fs, sb: Super, ino: nat, k: nat, b: nat)
    requires Shape(fs, sb) && ino < |fs.inodes| && k < NDIRECT
    ensures Rebound(fs, SetAddr(fs, ino, k, b), sb, Direct(ino, k), b)
  {}

  lemma ZeroWord(k: nat)
    requires k < WORDS
    ensures Word(ZeroBlock(), k) == 0
  {}

  /** Hanging a zeroed block in the indirect pointer names no other block. */
  lemma SetIndirect(fs: Fs, sb: Super, ino: nat, b: nat)
    requires Shape(fs, sb) && ino < |fs.inodes| && fs.inodes[ino].addrs[NDIRECT] == 0
    requires b < sb.size && fs.blocks[b] == ZeroBlock()
    ensures Rebound(fs, SetAddr(fs, ino, NDIRECT, b), sb, IndPtr(ino), b)
  {
    hide Word, ZeroBlock;
    var r := SetAddr(fs, ino, NDIRECT, b);
    forall s | IsSlot(fs, s) ensures Value(r, sb, s) == if s == IndPtr(ino) then b else Value(fs, sb, s) {
      if s.IndEnt? {
        ZeroWord(s.k);
      }
    }
  }

  function SetEntry(fs: Fs, sb: Super, ino: nat, k: nat, b: nat): (r: Fs)
    requires Shape(fs, sb) && ino < |fs.inodes| && k < NINDIRECT && b < UINT_RANGE
  {
    var p := fs.inodes[ino].addrs[NDIRECT];
    fs.(blocks := fs.blocks[p := PutWord(fs.blocks[p], k, b)])
  }

  lemma SetEntryRebinds(fs: Fs, sb: Super, ow: map<nat, Slot>, loose: set<nat>, ino: nat, k: nat, b: nat)
    requires Allocated(fs, sb, ow, loose) && ino < |fs.inodes| && k < NINDIRECT && b < sb.size
    requires fs.inodes[ino].addrs[NDIRECT] != 0
    ensures Rebound(fs, SetEntry(fs, sb, ino, k, b), sb, IndEnt(ino, k), b)
  {
    hide Word, Bit;
    var r := SetEntry(fs, sb, ino, k, b);
    forall s | IsSlot(fs, s) ensures Value(r, sb, s) == if s == IndEnt(ino, k) then b else Value(fs, sb, s) {
      IndirectOwned(fs, sb, ow, loose, s.ino);
      IndirectOwned(fs, sb, ow, loose, ino);
    }
  }

  // ----- letting go of an indirect block and all it names -----

  predicate Under(s: Slot, ino: nat) { s.ino == ino && !s.Direct? }

  function BlocksUnder(ow: map<nat, Slot>, ino: nat): (r: set<nat>) {
    set b | b in ow && Under(ow[b], ino)
  }

  lemma DetachIndirect(fs: Fs, sb: Super, ow: map<nat, Slot>, loose: set<nat>, ino: nat)
    requires Allocated(fs, sb, ow, loose) && ino < |fs.inodes| && fs.inodes[ino].addrs[NDIRECT] != 0
    ensures var gone := BlocksUnder(ow, ino);
            Allocated(SetAddr(fs, ino, NDIRECT, 0), sb, ow - gone, loose + gone)
    ensures forall k :: 0 <= k < NINDIRECT && Value(fs, sb, IndEnt(ino, k)) != 0 ==>
              Value(fs, sb, IndEnt(ino, k)) in BlocksUnder(ow, ino)
    ensures forall b :: b in BlocksUnder(ow, ino) && b != fs.inodes[ino].addrs[NDIRECT] ==>
              ow[b].IndEnt? && ow[b].ino == ino && ow[b].k < NINDIRECT && Value(fs, sb, ow[b]) == b
  {
    hide Word, Bit;
    var r := SetAddr(fs, ino, NDIRECT, 0);
    assert Shape(r, sb);
    forall s | IsSlot(fs, s) ensures Value(r, sb, s) == if Under(s, ino) then 0 else Value(fs, sb, s) {}
    forall c | 0 <= c < sb.size ensures InUse(r, sb, c) == InUse(fs, sb, c) {}
    hide Value;
  }

  // ----- files as byte sequences -----

  function DataSlot(ino: nat, bn: nat): (s: Slot) {
    if bn < NDIRECT then Direct(ino, bn) else IndEnt(ino, bn - NDIRECT)
  }

  /** The block holding block number `bn` of a file, 0 if unmapped. */
  function MapOf(fs: Fs, sb: Super, ino: nat, bn: nat): (b: nat)
    requires Shape(fs, sb) && ino < |fs.inodes| && bn < MAXFILE
  {
    Value(fs, sb, DataSlot(ino, bn))
  }

  /** Every mapped file block of `fs` is still mapped, to the same block with
      the same bytes; no size changed, nor any metadata below the bitmap. */
  ghost predicate Preserves(fs: Fs, r: Fs, sb: Super) {
    && Shape(fs, sb) && Shape(r, sb) && |r.inodes| == |fs.inodes|
    && (forall i :: 0 <= i < |fs.inodes| ==> r.inodes[i].size == fs.inodes[i].size)
    && (forall c :: 0 <= c < sb.bmapstart ==> r.blocks[c] == fs.blocks[c])
    && (forall i, bn :: 0 <= i < |fs.inodes| && 0 <= bn < MAXFILE && 0 < MapOf(fs, sb, i, bn) < sb.size ==>
          MapOf(r, sb, i, bn) == MapOf(fs, sb, i, bn) &&
          r.blocks[MapOf(fs, sb, i, bn)] == fs.blocks[MapOf(fs, sb, i, bn)])
  }

  lemma PreservesTrans(f: Fs, g: Fs, h: Fs, sb: Super)
    requires Preserves(f, g, sb) && Preserves(g, h, sb)
    ensures Preserves(f, h, sb)
  {
    hide MapOf;
  }

  lemma AllocPreserves(fs: Fs, sb: Super, ow: map<nat, Slot>, loose: set<nat>, b: nat)
    requires Allocated(fs, sb, ow, loose) && b < sb.size && !InUse(fs, sb, b)
    ensures Preserves(fs, MarkUsed(fs, sb, b), sb)
  {
    AllocMove(fs, sb, ow, loose, b);
    var r := MarkUsed(fs, sb, b);
    hide Value, Bit, MarkUsed;
    forall i, bn | 0 <= i < |fs.inodes| && 0 <= bn < MAXFILE && 0 < MapOf(fs, sb, i, bn) < sb.size
      ensures MapOf(r, sb, i, bn) == MapOf(fs, sb, i, bn)
      ensures r.blocks[MapOf(fs, sb, i, bn)] == fs.blocks[MapOf(fs, sb, i, bn)]
    {
      assert IsSlot(fs, DataSlot(i, bn));
      MarkUsedData(fs, sb, b, MapOf(fs, sb, i, bn));
    }
    forall c | 0 <= c < sb.bmapstart ensures r.blocks[c] == fs.blocks[c] {
      MarkUsedLow(fs, sb, b, c);
    }
  }

  lemma AttachPreserves(fs: Fs, r: Fs, sb: Super, ow: map<nat, Slot>, loose: set<nat>, slot: Slot, b: nat)
    requires Allocated(fs, sb, ow, loose) && Rebound(fs, r, sb, slot, b) && IsSlot(fs, slot) && Value(fs, sb, slot) == 0
    requires forall i :: 0 <= i < |fs.inodes| ==> r.inodes[i].size == fs.inodes[i].size
    requires forall c :: 0 <= c < sb.size && !(c in ow && ow[c].IndPtr?) ==> r.blocks[c] == fs.blocks[c]
    ensures Preserves(fs, r, sb)
  {
    hide Value, InUse, MapOf;
    forall i, bn | 0 <= i < |fs.inodes| && 0 <= bn < MAXFILE && 0 < MapOf(fs, sb, i, bn) < sb.size
      ensures MapOf(r, sb, i, bn) == MapOf(fs, sb, i, bn)
      ensures r.blocks[MapOf(fs, sb, i, bn)] == fs.blocks[MapOf(fs, sb, i, bn)]
    {
      AttachedBlock(fs, r, sb, ow, loose, slot, b, i, bn);
    }
    forall c | 0 <= c < sb.bmapstart ensures r.blocks[c] == fs.blocks[c] {}
  }

  lemma AttachedBlock(fs: Fs, r: Fs, sb: Super, ow: map<nat, Slot>, loose: set<nat>, slot: Slot, b: nat, i: nat, bn: nat)
    requires Allocated(fs, sb, ow, loose) && Rebound(fs, r, sb, slot, b) && IsSlot(fs, slot) && Value(fs, sb, slot) == 0
    requires forall c :: 0 <= c < sb.size && !(c in ow && ow[c].IndPtr?) ==> r.blocks[c] == fs.blocks[c]
    requires i < |fs.inodes| && bn < MAXFILE && 0 < MapOf(fs, sb, i, bn) < sb.size
    ensures MapOf(r, sb, i, bn) == MapOf(fs, sb, i, bn)
    ensures r.blocks[MapOf(fs, sb, i, bn)] == fs.blocks[MapOf(fs, sb, i, bn)]
  {
    hide Value, InUse;
    var s := DataSlot(i, bn);
    assert IsSlot(fs, s) && Value(fs, sb, s) in ow && ow[Value(fs, sb, s)] == s;
    assert Value(r, sb, s) == Value(fs, sb, s);
  }

  // ----- contents -----

  /** Every block below the file's size is mapped. */
  ghost predicate Mapped(fs: Fs, sb: Super, ino: nat)
    requires Shape(fs, sb) && ino < |fs.inodes|
  {
    && fs.inodes[ino].size <= MAXFILE * BSIZE
    && forall bn :: 0 <= bn < MAXFILE && bn * BSIZE < fs.inodes[ino].size ==> 0 < MapOf(fs, sb, ino, bn) < sb.size
  }

  /** Offset `p` of a file lies in block BlockNo(p) at place InBlock(p). */
  function BlockNo(p: nat): (bn: nat) { p / BSIZE }

  function InBlock(p: nat): (at: nat)
    ensures at < BSIZE
  {
    p % BSIZE
  }

  lemma SplitOffset(p: nat, i: nat)
    requires InBlock(p) + i < BSIZE
    ensures BlockNo(p + i) == BlockNo(p) && InBlock(p + i) == InBlock(p) + i
  {}

  lemma BlockBelow(p: nat, size: nat)
    requires p < size
    ensures BlockNo(p) * BSIZE < size && p == BlockNo(p) * BSIZE + InBlock(p)
    ensures size <= MAXFILE * BSIZE ==> BlockNo(p) < MAXFILE
  {}

  function ByteAt(fs: Fs, sb: Super, ino: nat, p: nat): (x: Byte)
    requires Shape(fs, sb) && ino < |fs.inodes| && BlockNo(p) < MAXFILE
    requires MapOf(fs, sb, ino, BlockNo(p)) < sb.size
  {
    fs.blocks[MapOf(fs, sb, ino, BlockNo(p))][InBlock(p)]
  }

  /** The file as a byte sequence. */
  ghost function Content(fs: Fs, sb: Super, ino: nat): (c: seq<Byte>)
    requires Shape(fs, sb) && ino < |fs.inodes| && Mapped(fs, sb, ino)
    ensures |c| == fs.inodes[ino].size
  {
    seq(fs.inodes[ino].size, p requires 0 <= p < fs.inodes[ino].size =>
      BlockBelow(p, fs.inodes[ino].size); ByteAt(fs, sb, ino, p))
  }

  lemma ContentAt(fs: Fs, sb: Super, ino: nat, p: nat)
    requires Shape(fs, sb) && ino < |fs.inodes| && Mapped(fs, sb, ino) && p < fs.inodes[ino].size
    ensures BlockNo(p) < MAXFILE && 0 < MapOf(fs, sb, ino, BlockNo(p)) < sb.size
    ensures Content(fs, sb, ino)[p] == ByteAt(fs, sb, ino, p)
  {
    hide MapOf, BlockNo, InBlock;
    BlockBelow(p, fs.inodes[ino].size);
  }

  /** `r` differs from `fs` only in file `ino`'s own blocks. */
  ghost predicate OthersKept(fs: Fs, r: Fs, sb: Super, ino: nat) {
    && Shape(fs, sb) && Shape(r, sb) && |r.inodes| == |fs.inodes|
    && (forall i :: 0 <= i < |fs.inodes| && i != ino ==> r.inodes[i] == fs.inodes[i])
    && (forall c :: 0 <= c < sb.bmapstart ==> r.blocks[c] == fs.blocks[c])
    && (forall i, bn :: 0 <= i < |fs.inodes| && i != ino && 0 <= bn < MAXFILE && 0 < MapOf(fs, sb, i, bn) < sb.size ==>
          MapOf(r, sb, i, bn) == MapOf(fs, sb, i, bn) &&
          r.blocks[MapOf(fs, sb, i, bn)] == fs.blocks[MapOf(fs, sb, i, bn)])
  }

  /** File `i` has the same size, blocks and bytes in both states. */
  ghost predicate FileKept(fs: Fs, r: Fs, sb: Super, i: nat) {
    && Shape(fs, sb) && Shape(r, sb) && i < |fs.inodes| == |r.inodes|
    && r.inodes[i].size == fs.inodes[i].size
    && forall bn :: 0 <= bn < MAXFILE && 0 < MapOf(fs, sb, i, bn) < sb.size ==>
         MapOf(r, sb, i, bn) == MapOf(fs, sb, i, bn) &&
         r.blocks[MapOf(fs, sb, i, bn)] == fs.blocks[MapOf(fs, sb, i, bn)]
  }

  lemma KeptContent(fs: Fs, r: Fs, sb: Super, i: nat)
    requires FileKept(fs, r, sb, i) && Mapped(fs, sb, i)
    ensures Mapped(r, sb, i) && Content(r, sb, i) == Content(fs, sb, i)
  {
    hide MapOf, BlockNo, InBlock, Content;
    forall p | 0 <= p < fs.inodes[i].size ensures Content(r, sb, i)[p] == Content(fs, sb, i)[p] {
      ContentAt(fs, sb, i, p);
      ContentAt(r, sb, i, p);
    }
  }

  lemma OthersContent(fs: Fs, r: Fs, sb: Super, ino: nat, i: nat)
    requires OthersKept(fs, r, sb, ino) && i < |fs.inodes| && i != ino && Mapped(fs, sb, i)
    ensures Mapped(r, sb, i) && Content(r, sb, i) == Content(fs, sb, i)
  {
    hide MapOf, Content;
    KeptContent(fs, r, sb, i);
  }

  lemma OthersTrans(f: Fs, g: Fs, h: Fs, sb: Super, ino: nat)
    requires OthersKept(f, g, sb, ino) && OthersKept(g, h, sb, ino)
    ensures OthersKept(f, h, sb, ino)
  {
    hide MapOf;
  }

  lemma PreservesOthers(f: Fs, g: Fs, sb: Super, ino: nat)
    requires Preserves(f, g, sb)
    requires forall i :: 0 <= i < |f.inodes| && i != ino ==> g.inodes[i] == f.inodes[i]
    ensures OthersKept(f, g, sb, ino)
  {
    hide MapOf;
  }

  /** Storing bytes into one mapped block of a file. */
  function StoreBytes(fs: Fs, a: nat, at: nat, bytes: seq<Byte>): (r: Fs)
    requires a < |fs.blocks| && at + |bytes| <= BSIZE
  {
    fs.(blocks := fs.blocks[a := Splice(fs.blocks[a], at, bytes)])
  }

  lemma StoreMove(fs: Fs, sb: Super, ow: map<nat, Slot>, ino: nat, bn: nat, at: nat, bytes: seq<Byte>)
    requires Allocated(fs, sb, ow, {}) && ino < |fs.inodes| && bn < MAXFILE
    requires 0 < MapOf(fs, sb, ino, bn) < sb.size && at + |bytes| <= BSIZE
    ensures var r := StoreBytes(fs, MapOf(fs, sb, ino, bn), at, bytes);
            Allocated(r, sb, ow, {}) && forall s :: IsSlot(fs, s) ==> Value(r, sb, s) == Value(fs, sb, s)
  {
    hide Word, Bit, Splice;
    var a := MapOf(fs, sb, ino, bn);
    var r := StoreBytes(fs, a, at, bytes);
    assert IsSlot(fs, DataSlot(ino, bn));
    forall c | 0 <= c < sb.size ensures InUse(r, sb, c) == InUse(fs, sb, c) {
      BitmapDistinct(sb, c, c);
    }
    forall s | IsSlot(fs, s) ensures Value(r, sb, s) == Value(fs, sb, s) {
      IndirectOwned(fs, sb, ow, {}, s.ino);
    }
  }

  /** The store is seen at its own file block only. */
  lemma StoreElsewhere(fs: Fs, sb: Super, ow: map<nat, Slot>, ino: nat, bn: nat, at: nat, bytes: seq<Byte>, i: nat, bn': nat)
    requires Allocated(fs, sb, ow, {}) && ino < |fs.inodes| && bn < MAXFILE && i < |fs.inodes| && bn' < MAXFILE
    requires 0 < MapOf(fs, sb, ino, bn) < sb.size && at + |bytes| <= BSIZE
    requires 0 < MapOf(fs, sb, i, bn') < sb.size && (i != ino || bn' != bn)
    ensures var r := StoreBytes(fs, MapOf(fs, sb, ino, bn), at, bytes);
            Shape(r, sb) && MapOf(r, sb, i, bn') == MapOf(fs, sb, i, bn') &&
            r.blocks[MapOf(fs, sb, i, bn')] == fs.blocks[MapOf(fs, sb, i, bn')]
  {
    StoreMove(fs, sb, ow, ino, bn, at, bytes);
    assert IsSlot(fs, DataSlot(ino, bn)) && IsSlot(fs, DataSlot(i, bn'));
    assert DataSlot(ino, bn) != DataSlot(i, bn');
    hide Word, Bit, Splice, Value;
  }

  // ----- the block-by-block loops of readi and writei -----

  /** Bytes moved by the chunk that starts after `tot` of `n` bytes. */
  function Chunk(off: nat, n: nat, tot: nat): (m: nat)
    requires tot < n
    ensures 0 < m <= n - tot && InBlock(off + tot) + m <= BSIZE
  {
    var room := BSIZE - InBlock(off + tot);
    if n - tot < room then n - tot else room
  }

  /** Bytes moved by the first `c` chunks. */
  function AfterChunks(off: nat, n: nat, c: nat): (tot: nat)
    ensures tot <= n
  {
    if c == 0 then 0
    else
      var t := AfterChunks(off, n, c - 1);
      if t == n then n else t + Chunk(off, n, t)
  }

  lemma ChunkStep(off: nat, n: nat, c: nat)
    requires AfterChunks(off, n, c) < n
    ensures AfterChunks(off, n, c + 1) == AfterChunks(off, n, c) + Chunk(off, n, AfterChunks(off, n, c))
  {}

  /** The number of blocks that n bytes from `off` on lie in. */
  function Spanned(off: nat, n: nat): (k: nat) { if n == 0 then 0 else (off + n - 1) / BSIZE - off / BSIZE + 1 }

  /** Bytes up to the c-th block boundary after `off`, or all of them. */
  function Moved(off: nat, n: nat, c: nat): (tot: nat) {
    if c == 0 then 0 else if n + off % BSIZE <= c * BSIZE then n else c * BSIZE - off % BSIZE
  }

  lemma {:induction false} ChunksMove(off: nat, n: nat, c: nat)
    ensures AfterChunks(off, n, c) == Moved(off, n, c)
  {
    if c > 0 {
      ChunksMove(off, n, c - 1);
      if c > 1 && Moved(off, n, c - 1) < n { OnBoundary(off, c - 1); }
    }
  }

  lemma OnBoundary(off: nat, c: nat)
    requires c > 0
    ensures InBlock(off + (c * BSIZE - off % BSIZE)) == 0
  {
    assert off + (c * BSIZE - off % BSIZE) == (off / BSIZE + c) * BSIZE;
  }

  /** All bytes are moved iff there is a chunk for every block they lie in. */
  lemma ChunksEnough(off: nat, n: nat, c: nat)
    ensures AfterChunks(off, n, c) == n <==> c >= Spanned(off, n)
  {
    ChunksMove(off, n, c);
    var q, r := off / BSIZE, off % BSIZE;
    assert off == q * BSIZE + r;
    if n > 0 {
      var e := (off + n - 1) / BSIZE;
      assert e * BSIZE <= off + n - 1 < (e + 1) * BSIZE;
      hide AfterChunks;
    }
  }

  lemma {:induction false} ChunksDone(off: nat, n: nat, c: nat, more: nat)
    requires AfterChunks(off, n, c) == n && c <= more
    ensures AfterChunks(off, n, more) == n
    decreases more - c
  {
    if c < more {
      ChunksDone(off, n, c + 1, more);
    }
  }

  /** `content` with `data` stored at `off`. */
  function Written(content: seq<Byte>, off: nat, data: seq<Byte>): (r: seq<Byte>)
    requires off <= |content|
  {
    content[..off] + data + if off + |data| < |content| then content[off + |data|..] else []
  }
}
