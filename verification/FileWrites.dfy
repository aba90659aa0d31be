/** What writei, iupdate and itrunc do to files, as facts about file-system
    states (kernel/fs.c). */
module FileWrites {
  import opened Params
  import opened Blocks
  import opened Inodes
  import opened Dinodes

  /** Part-way through writei: the first `tot` bytes of `data` are in place at
      `off`, every other byte of the file is as in `f`, other files are as in
      `f`, and the size is not updated yet. */
  ghost predicate Writing(f: Fs, g: Fs, sb: Super, ino: nat, off: nat, data: seq<Byte>, tot: nat) {
    && OthersKept(f, g, sb, ino) && ino < |f.inodes| && Mapped(f, sb, ino)
    && off <= f.inodes[ino].size && tot <= |data| && off + |data| <= MAXFILE * BSIZE
    && g.inodes[ino].size == f.inodes[ino].size && g.inodes[ino].head == f.inodes[ino].head
    && forall p :: 0 <= p && (p < f.inodes[ino].size || p < off + tot) ==> WrittenAt(f, g, sb, ino, off, data, tot, p)
  }

  ghost predicate WrittenAt(f: Fs, g: Fs, sb: Super, ino: nat, off: nat, data: seq<Byte>, tot: nat, p: nat)
    requires Shape(f, sb) && Shape(g, sb) && ino < |f.inodes| == |g.inodes| && Mapped(f, sb, ino) && tot <= |data|
  {
    && BlockNo(p) < MAXFILE && 0 < MapOf(g, sb, ino, BlockNo(p)) < sb.size
    && (off <= p < off + tot ==> ByteAt(g, sb, ino, p) == data[p - off])
    && (!(off <= p < off + tot) && p < f.inodes[ino].size ==> ByteAt(g, sb, ino, p) == Content(f, sb, ino)[p])
  }

  lemma AllocShape(fs: Fs, sb: Super, ow: map<nat, Slot>, loose: set<nat>)
    requires Allocated(fs, sb, ow, loose)
    ensures Shape(fs, sb)
  {
    hide Value, InUse;
  }

  lemma KeptShape(f: Fs, g: Fs, sb: Super, ino: nat)
    requires OthersKept(f, g, sb, ino)
    ensures Shape(f, sb) && Shape(g, sb) && |f.inodes| == |g.inodes|
  {
    hide MapOf;
  }

  lemma WritingStarts(f: Fs, sb: Super, ino: nat, off: nat, data: seq<Byte>)
    requires Shape(f, sb) && ino < |f.inodes| && Mapped(f, sb, ino)
    requires off <= f.inodes[ino].size && off + |data| <= MAXFILE * BSIZE
    ensures Writing(f, f, sb, ino, off, data, 0)
  {
    hide MapOf, Content, BlockNo, InBlock, ByteAt;
    forall p | 0 <= p && (p < f.inodes[ino].size || p < off + 0) ensures WrittenAt(f, f, sb, ino, off, data, 0, p) {
      ContentAt(f, sb, ino, p);
    }
  }

  /** bmap on the way keeps what has been written. */
  lemma WritingMapped(f: Fs, g: Fs, h: Fs, sb: Super, ino: nat, off: nat, data: seq<Byte>, tot: nat)
    requires Writing(f, g, sb, ino, off, data, tot) && Preserves(g, h, sb)
    requires forall i :: 0 <= i < |g.inodes| && i != ino ==> h.inodes[i] == g.inodes[i]
    requires h.inodes[ino].head == g.inodes[ino].head
    ensures Writing(f, h, sb, ino, off, data, tot)
  {
    hide MapOf, Content, BlockNo, InBlock;
    PreservesOthers(g, h, sb, ino);
    OthersTrans(f, g, h, sb, ino);
    forall p | 0 <= p && (p < f.inodes[ino].size || p < off + tot) ensures WrittenAt(f, h, sb, ino, off, data, tot, p) {
      assert WrittenAt(f, g, sb, ino, off, data, tot, p);
    }
  }

  /** Storing the next chunk into its mapped block. */
  lemma WritingStored(f: Fs, g: Fs, h: Fs, sb: Super, ow: map<nat, Slot>, ino: nat, off: nat, data: seq<Byte>, tot: nat, m: nat)
    requires Writing(f, g, sb, ino, off, data, tot) && Allocated(g, sb, ow, {})
    requires 0 < m && tot + m <= |data| && InBlock(off + tot) + m <= BSIZE
    requires BlockNo(off + tot) < MAXFILE && 0 < MapOf(g, sb, ino, BlockNo(off + tot)) < sb.size
    requires h == StoreBytes(g, MapOf(g, sb, ino, BlockNo(off + tot)), InBlock(off + tot), data[tot..tot + m])
    ensures Allocated(h, sb, ow, {}) && Writing(f, h, sb, ino, off, data, tot + m)
  {
    hide Content, BlockNo, InBlock, Value, Allocated, OthersKept, Mapped, MapOf, StoreBytes, WrittenAt, Shape;
    AllocShape(g, sb, ow, {});
    KeptShape(f, g, sb, ino);
    var bn, at, bytes, tot' := BlockNo(off + tot), InBlock(off + tot), data[tot..tot + m], tot + m;
    StoreMove(g, sb, ow, ino, bn, at, bytes);
    StoredOthers(g, h, sb, ow, ino, bn, at, bytes);
    OthersTrans(f, g, h, sb, ino);
    forall p | 0 <= p && (p < f.inodes[ino].size || p < off + tot')
      ensures WrittenAt(f, h, sb, ino, off, data, tot', p)
    {
      StoredAt(f, g, h, sb, ow, ino, off, data, tot, m, p);
    }
  }

  lemma TargetAbove(g: Fs, sb: Super, ow: map<nat, Slot>, ino: nat, bn: nat)
    requires Allocated(g, sb, ow, {}) && ino < |g.inodes| && bn < MAXFILE && MapOf(g, sb, ino, bn) != 0
    ensures sb.bmapstart < sb.nmeta <= MapOf(g, sb, ino, bn)
  {
    hide Value, InUse;
    assert IsSlot(g, DataSlot(ino, bn));
  }

  lemma StoredShape(g: Fs, h: Fs, sb: Super, c: nat, at: nat, bytes: seq<Byte>)
    requires Shape(g, sb) && sb.bmapstart < c < sb.size && at + |bytes| <= BSIZE && h == StoreBytes(g, c, at, bytes)
    ensures Shape(h, sb) && h.inodes == g.inodes && forall b :: 0 <= b < sb.bmapstart ==> h.blocks[b] == g.blocks[b]
  {
    hide Splice;
  }

  lemma StoredOthers(g: Fs, h: Fs, sb: Super, ow: map<nat, Slot>, ino: nat, bn: nat, at: nat, bytes: seq<Byte>)
    requires Allocated(g, sb, ow, {}) && ino < |g.inodes| && bn < MAXFILE
    requires 0 < MapOf(g, sb, ino, bn) < sb.size && at + |bytes| <= BSIZE
    requires h == StoreBytes(g, MapOf(g, sb, ino, bn), at, bytes)
    ensures Shape(h, sb) && OthersKept(g, h, sb, ino) && h.inodes == g.inodes
  {
    hide MapOf, Allocated, StoreBytes;
    AllocShape(g, sb, ow, {});
    TargetAbove(g, sb, ow, ino, bn);
    StoredShape(g, h, sb, MapOf(g, sb, ino, bn), at, bytes);
    forall i, b' | 0 <= i < |g.inodes| && i != ino && 0 <= b' < MAXFILE && 0 < MapOf(g, sb, i, b') < sb.size
      ensures MapOf(h, sb, i, b') == MapOf(g, sb, i, b')
      ensures h.blocks[MapOf(g, sb, i, b')] == g.blocks[MapOf(g, sb, i, b')]
    {
      StoreElsewhere(g, sb, ow, ino, bn, at, bytes, i, b');
    }
  }

  lemma StoredAt(f: Fs, g: Fs, h: Fs, sb: Super, ow: map<nat, Slot>, ino: nat, off: nat, data: seq<Byte>, tot: nat, m: nat, p: nat)
    requires Writing(f, g, sb, ino, off, data, tot) && Allocated(g, sb, ow, {})
    requires 0 < m && tot + m <= |data| && InBlock(off + tot) + m <= BSIZE
    requires BlockNo(off + tot) < MAXFILE && 0 < MapOf(g, sb, ino, BlockNo(off + tot)) < sb.size
    requires h == StoreBytes(g, MapOf(g, sb, ino, BlockNo(off + tot)), InBlock(off + tot), data[tot..tot + m])
    requires Shape(h, sb) && (p < f.inodes[ino].size || p < off + (tot + m))
    ensures WrittenAt(f, h, sb, ino, off, data, tot + m, p)
  {
    assert Shape(f, sb) && Shape(g, sb) && |f.inodes| == |g.inodes| == |h.inodes|;
    hide Content, BlockNo, InBlock, Value, Allocated, OthersKept, Mapped, StoreBytes, MapOf;
    var q, bytes := off + tot, data[tot..tot + m];
    if q <= p < q + m {
      SplitOffset(q, p - q);
      ByteInChunk(g, h, sb, ow, ino, q, bytes, p);
    } else {
      assert WrittenAt(f, g, sb, ino, off, data, tot, p);
      ByteOutside(g, h, sb, ow, ino, q, bytes, p);
    }
  }

  lemma ByteInChunk(g: Fs, h: Fs, sb: Super, ow: map<nat, Slot>, ino: nat, q: nat, bytes: seq<Byte>, p: nat)
    requires Allocated(g, sb, ow, {}) && ino < |g.inodes| && BlockNo(q) < MAXFILE
    requires 0 < MapOf(g, sb, ino, BlockNo(q)) < sb.size && InBlock(q) + |bytes| <= BSIZE
    requires h == StoreBytes(g, MapOf(g, sb, ino, BlockNo(q)), InBlock(q), bytes) && Shape(h, sb)
    requires q <= p < q + |bytes|
    ensures BlockNo(p) < MAXFILE && 0 < MapOf(h, sb, ino, BlockNo(p)) < sb.size
    ensures ByteAt(h, sb, ino, p) == bytes[p - q]
  {
    SplitOffset(q, p - q);
    StoreMove(g, sb, ow, ino, BlockNo(q), InBlock(q), bytes);
    assert IsSlot(g, DataSlot(ino, BlockNo(q)));
    hide Allocated, BlockNo, InBlock, Value;
  }

  lemma ByteOutside(g: Fs, h: Fs, sb: Super, ow: map<nat, Slot>, ino: nat, q: nat, bytes: seq<Byte>, p: nat)
    requires Allocated(g, sb, ow, {}) && ino < |g.inodes| && BlockNo(q) < MAXFILE && BlockNo(p) < MAXFILE
    requires 0 < MapOf(g, sb, ino, BlockNo(q)) < sb.size && InBlock(q) + |bytes| <= BSIZE
    requires h == StoreBytes(g, MapOf(g, sb, ino, BlockNo(q)), InBlock(q), bytes) && Shape(h, sb)
    requires !(q <= p < q + |bytes|) && 0 < MapOf(g, sb, ino, BlockNo(p)) < sb.size
    ensures 0 < MapOf(h, sb, ino, BlockNo(p)) < sb.size && ByteAt(h, sb, ino, p) == ByteAt(g, sb, ino, p)
  {
    if BlockNo(p) == BlockNo(q) {
      SameBlock(q, p, |bytes|);
      StoreMove(g, sb, ow, ino, BlockNo(q), InBlock(q), bytes);
      assert IsSlot(g, DataSlot(ino, BlockNo(q)));
    } else {
      StoreElsewhere(g, sb, ow, ino, BlockNo(q), InBlock(q), bytes, ino, BlockNo(p));
    }
    hide Allocated, BlockNo, InBlock, Value;
  }

  /** Two offsets in one block: the other one is outside the chunk's range. */
  lemma SameBlock(q: nat, p: nat, m: nat)
    requires BlockNo(p) == BlockNo(q) && !(q <= p < q + m)
    ensures !(InBlock(q) <= InBlock(p) < InBlock(q) + m)
  {}

  function SetSize(fs: Fs, ino: nat, size: nat): (r: Fs)
    requires ino < |fs.inodes|
  {
    fs.(inodes := fs.inodes[ino := fs.inodes[ino].(size := size)])
  }

  /** A new size moves no pointer. */
  lemma SetSizeMove(fs: Fs, sb: Super, ow: map<nat, Slot>, ino: nat, size: nat)
    requires Allocated(fs, sb, ow, {}) && ino < |fs.inodes|
    ensures Allocated(SetSize(fs, ino, size), sb, ow, {})
    ensures forall s :: IsSlot(fs, s) ==> Value(SetSize(fs, ino, size), sb, s) == Value(fs, sb, s)
  {
    hide Word, Bit;
    var r := SetSize(fs, ino, size);
    assert Shape(r, sb);
    forall s | IsSlot(fs, s) ensures Value(r, sb, s) == Value(fs, sb, s) {}
    forall c | 0 <= c < sb.size ensures InUse(r, sb, c) == InUse(fs, sb, c) {}
    hide Value;
  }

  /** The end of writei: with the size raised to cover the bytes written, the
      file is the old one with the data spliced in. */
  lemma WritingEnds(f: Fs, g: Fs, h: Fs, sb: Super, ow: map<nat, Slot>, ino: nat, off: nat, data: seq<Byte>, tot: nat)
    requires Writing(f, g, sb, ino, off, data, tot) && Allocated(g, sb, ow, {})
    requires h == SetSize(g, ino, if off + tot > f.inodes[ino].size then off + tot else f.inodes[ino].size)
    ensures Allocated(h, sb, ow, {}) && OthersKept(f, h, sb, ino) && Mapped(h, sb, ino)
    ensures Content(h, sb, ino) == Written(Content(f, sb, ino), off, data[..tot])
  {
    hide Value, Allocated, Content, BlockNo, InBlock, OthersKept;
    KeptShape(f, g, sb, ino);
    SetSizeMove(g, sb, ow, ino, h.inodes[ino].size);
    AllocShape(h, sb, ow, {});
    SizedOthers(f, g, h, sb, ino);
    forall bn | 0 <= bn < MAXFILE && bn * BSIZE < h.inodes[ino].size ensures 0 < MapOf(h, sb, ino, bn) < sb.size {
      BlockStart(bn);
      assert WrittenAt(f, g, sb, ino, off, data, tot, bn * BSIZE);
      assert IsSlot(g, DataSlot(ino, bn));
    }
    var x, y := Content(h, sb, ino), Written(Content(f, sb, ino), off, data[..tot]);
    forall p | 0 <= p < |x| ensures x[p] == y[p] {
      ContentAt(h, sb, ino, p);
      assert WrittenAt(f, g, sb, ino, off, data, tot, p);
      assert IsSlot(g, DataSlot(ino, BlockNo(p)));
    }
  }

  lemma BlockStart(bn: nat)
    ensures BlockNo(bn * BSIZE) == bn
  {}

  lemma SizedOthers(f: Fs, g: Fs, h: Fs, sb: Super, ino: nat)
    requires OthersKept(f, g, sb, ino) && ino < |f.inodes| && Shape(h, sb)
    requires h.blocks == g.blocks && |h.inodes| == |g.inodes|
    requires forall i :: 0 <= i < |g.inodes| && i != ino ==> h.inodes[i] == g.inodes[i]
    ensures OthersKept(f, h, sb, ino)
  {
    hide Word;
  }

  // ----- iupdate -----

  /** iupdate's store into the inode's block. */
  function PutInode(fs: Fs, sb: Super, ino: nat): (r: Fs)
    requires ino < |fs.inodes| && Storable(fs.inodes[ino]) && InodeBlock(sb, ino) < |fs.blocks|
  {
    var c := InodeBlock(sb, ino);
    fs.(blocks := fs.blocks[c := PutDinode(fs.blocks[c], ino % IPB, fs.inodes[ino], 16)])
  }

  /** `r` is `fs` but for blocks below the bitmap. */
  ghost predicate LowEdit(fs: Fs, r: Fs, sb: Super) {
    && Shape(fs, sb) && Shape(r, sb) && r.inodes == fs.inodes
    && forall c :: sb.bmapstart <= c < sb.size ==> r.blocks[c] == fs.blocks[c]
  }

  lemma PutInodeLow(fs: Fs, sb: Super, ino: nat)
    requires Shape(fs, sb) && ino < |fs.inodes| && Storable(fs.inodes[ino]) && InodeBlock(sb, ino) < sb.bmapstart
    ensures InodeBlock(sb, ino) < |fs.blocks| && LowEdit(fs, PutInode(fs, sb, ino), sb)
  {
    hide PutDinode, InodeBlock;
  }

  lemma LowValue(fs: Fs, r: Fs, sb: Super, ow: map<nat, Slot>, s: Slot)
    requires LowEdit(fs, r, sb) && Allocated(fs, sb, ow, {}) && IsSlot(fs, s)
    ensures Value(r, sb, s) == Value(fs, sb, s)
  {
    hide Word, Allocated;
    IndirectOwned(fs, sb, ow, {}, s.ino);
  }

  lemma LowUse(fs: Fs, r: Fs, sb: Super, b: nat)
    requires LowEdit(fs, r, sb) && b < sb.size
    ensures InUse(r, sb, b) == InUse(fs, sb, b)
  {
    hide Bit;
    BitmapDistinct(sb, b, b);
  }

  /** Blocks below the bitmap hold no file data and no pointers. */
  lemma LowMove(fs: Fs, r: Fs, sb: Super, ow: map<nat, Slot>)
    requires LowEdit(fs, r, sb) && Allocated(fs, sb, ow, {})
    ensures Allocated(r, sb, ow, {})
  {
    hide Value, InUse;
    forall s | IsSlot(fs, s) ensures Value(r, sb, s) == Value(fs, sb, s) { LowValue(fs, r, sb, ow, s); }
    forall b | 0 <= b < sb.size ensures InUse(r, sb, b) == InUse(fs, sb, b) { LowUse(fs, r, sb, b); }
  }

  lemma PutInodeMove(fs: Fs, sb: Super, ow: map<nat, Slot>, ino: nat)
    requires Allocated(fs, sb, ow, {}) && ino < |fs.inodes| && Storable(fs.inodes[ino]) && InodeBlock(sb, ino) < sb.bmapstart
    ensures InodeBlock(sb, ino) < |fs.blocks| && Allocated(PutInode(fs, sb, ino), sb, ow, {})
  {
    hide PutInode, InodeBlock;
    PutInodeLow(fs, sb, ino);
    LowMove(fs, PutInode(fs, sb, ino), sb, ow);
  }

  lemma PutInodeContent(fs: Fs, sb: Super, ow: map<nat, Slot>, ino: nat, i: nat)
    requires Allocated(fs, sb, ow, {}) && ino < |fs.inodes| && Storable(fs.inodes[ino]) && InodeBlock(sb, ino) < sb.bmapstart
    requires i < |fs.inodes| && Mapped(fs, sb, i) && InodeBlock(sb, ino) < |fs.blocks|
    ensures Shape(PutInode(fs, sb, ino), sb) && Mapped(PutInode(fs, sb, ino), sb, i)
    ensures Content(PutInode(fs, sb, ino), sb, i) == Content(fs, sb, i)
  {
    hide PutDinode, Value, Content, Allocated, MapOf, PutInode, InodeBlock;
    AllocShape(fs, sb, ow, {});
    PutInodeLow(fs, sb, ino);
    var r := PutInode(fs, sb, ino);
    forall bn | 0 <= bn < MAXFILE && 0 < MapOf(fs, sb, i, bn) < sb.size
      ensures MapOf(r, sb, i, bn) == MapOf(fs, sb, i, bn)
      ensures r.blocks[MapOf(fs, sb, i, bn)] == fs.blocks[MapOf(fs, sb, i, bn)]
    {
      PutInodeBlock(fs, r, sb, ow, i, bn);
    }
    PutInodeInodes(fs, sb, ino);
    KeptContent(fs, r, sb, i);
  }

  lemma PutInodeInodes(fs: Fs, sb: Super, ino: nat)
    requires Shape(fs, sb) && ino < |fs.inodes| && Storable(fs.inodes[ino]) && InodeBlock(sb, ino) < |fs.blocks|
    ensures Shape(PutInode(fs, sb, ino), sb) && PutInode(fs, sb, ino).inodes == fs.inodes
  {}

  lemma PutInodeBlock(fs: Fs, r: Fs, sb: Super, ow: map<nat, Slot>, i: nat, bn: nat)
    requires Allocated(fs, sb, ow, {}) && LowEdit(fs, r, sb)
    requires i < |fs.inodes| && bn < MAXFILE && 0 < MapOf(fs, sb, i, bn) < sb.size
    ensures MapOf(r, sb, i, bn) == MapOf(fs, sb, i, bn)
    ensures r.blocks[MapOf(fs, sb, i, bn)] == fs.blocks[MapOf(fs, sb, i, bn)]
  {
    hide Value, Allocated;
    Owner(fs, sb, ow, DataSlot(i, bn), 0);
    DataAbove(fs, sb, ow, MapOf(fs, sb, i, bn));
    LowValue(fs, r, sb, ow, DataSlot(i, bn));
  }

  lemma DataAbove(fs: Fs, sb: Super, ow: map<nat, Slot>, b: nat)
    requires Allocated(fs, sb, ow, {}) && b in ow
    ensures sb.bmapstart < sb.nmeta <= b
  {
    hide Value, InUse;
  }

  /** iupdate makes its own inode current and leaves the others as they were. */
  lemma PutInodeOnDisk(fs: Fs, sb: Super, ino: nat, i: nat)
    requires ino < |fs.inodes| && Storable(fs.inodes[ino])
    requires InodeBlock(sb, ino) < sb.bmapstart && InodeBlock(sb, ino) < |fs.blocks|
    requires i < |fs.inodes| && (i != ino ==> OnDisk(fs, sb, i))
    ensures OnDisk(PutInode(fs, sb, ino), sb, i)
  {
    hide PutDinode, GetDinode;
    var b := fs.blocks[InodeBlock(sb, ino)];
    if i == ino {
      DinodeRoundTrip(b, ino % IPB, fs.inodes[ino]);
    } else if InodeBlock(sb, i) == InodeBlock(sb, ino) {
      assert i % IPB != ino % IPB;
      DinodeNeighbour(b, ino % IPB, fs.inodes[ino], i % IPB);
    }
  }

  /** Pointers and size of a sound inode fit their on-disk width. */
  lemma StillStorable(fs: Fs, sb: Super, ow: map<nat, Slot>, ino: nat, was: Inode)
    requires Allocated(fs, sb, ow, {}) && ino < |fs.inodes| && fs.inodes[ino].size <= MAXFILE * BSIZE
    requires Storable(was) && fs.inodes[ino].head == was.head
    ensures Storable(fs.inodes[ino])
  {
    hide Word, InUse;
    forall k | 0 <= k <= NDIRECT ensures fs.inodes[ino].addrs[k] < UINT_RANGE {
      var s := if k == NDIRECT then IndPtr(ino) else Direct(ino, k);
      assert IsSlot(fs, s) && Value(fs, sb, s) == fs.inodes[ino].addrs[k];
    }
  }

  /** Every file fully mapped, every inode current on disk. */
  ghost predicate Settled(fs: Fs, sb: Super) {
    Shape(fs, sb) && forall i :: 0 <= i < |fs.inodes| ==> Mapped(fs, sb, i) && OnDisk(fs, sb, i)
  }

  /** Every file but `ino` has the same inode, blocks and bytes. */
  ghost predicate OtherFiles(f: Fs, k: Fs, sb: Super, ino: nat) {
    && |k.inodes| == |f.inodes|
    && forall i :: 0 <= i < |f.inodes| && i != ino ==> k.inodes[i] == f.inodes[i] && FileKept(f, k, sb, i)
  }

  /** An operation that changed file `ino` only, then called iupdate. */
  lemma SettledAgain(f: Fs, h: Fs, k: Fs, sb: Super, ow: map<nat, Slot>, ino: nat)
    requires Settled(f, sb) && OthersKept(f, h, sb, ino) && Allocated(h, sb, ow, {}) && ino < |h.inodes|
    requires Mapped(h, sb, ino) && Storable(h.inodes[ino]) && InodeBlock(sb, ino) < |h.blocks| && k == PutInode(h, sb, ino)
    ensures Allocated(k, sb, ow, {}) && Settled(k, sb) && OtherFiles(f, k, sb, ino)
    ensures Content(k, sb, ino) == Content(h, sb, ino)
  {
    hide Allocated, Mapped, PutInode, Content, MapOf, InodeBlock;
    assert OnDisk(f, sb, ino);
    assert Shape(f, sb) && Shape(h, sb) && |f.inodes| == |h.inodes|;
    PutInodeMove(h, sb, ow, ino);
    PutInodeInodes(h, sb, ino);
    forall i | 0 <= i < |k.inodes| ensures Mapped(k, sb, i) && OnDisk(k, sb, i) {
      assert Mapped(f, sb, i) && OnDisk(f, sb, i);
      SettledFile(f, h, k, sb, ow, ino, i);
    }
    PutInodeContent(h, sb, ow, ino, ino);
    hide OnDisk;
    PutInodeOthers(f, h, k, sb, ow, ino);
  }

  lemma SettledFile(f: Fs, h: Fs, k: Fs, sb: Super, ow: map<nat, Slot>, ino: nat, i: nat)
    requires OthersKept(f, h, sb, ino) && Allocated(h, sb, ow, {}) && ino < |h.inodes| && i < |h.inodes|
    requires Mapped(f, sb, i) && OnDisk(f, sb, i) && OnDisk(f, sb, ino)
    requires Mapped(h, sb, ino) && Storable(h.inodes[ino]) && InodeBlock(sb, ino) < |h.blocks| && k == PutInode(h, sb, ino)
    ensures Shape(k, sb) && |k.inodes| == |h.inodes| && Mapped(k, sb, i) && OnDisk(k, sb, i)
  {
    hide Allocated, Content, PutDinode, GetDinode, Value;
    if i != ino {
      OthersContent(f, h, sb, ino, i);
    }
    PutInodeContent(h, sb, ow, ino, i);
    assert i != ino ==> OnDisk(h, sb, i);
    PutInodeOnDisk(h, sb, ino, i);
  }

  lemma PutInodeOthers(f: Fs, h: Fs, k: Fs, sb: Super, ow: map<nat, Slot>, ino: nat)
    requires OthersKept(f, h, sb, ino) && Allocated(h, sb, ow, {}) && ino < |h.inodes|
    requires Storable(h.inodes[ino]) && InodeBlock(sb, ino) < sb.bmapstart && k == PutInode(h, sb, ino)
    ensures OtherFiles(f, k, sb, ino)
  {
    hide MapOf, PutInode, InodeBlock, Value, InUse;
    PutInodeLow(h, sb, ino);
    forall i, bn | 0 <= i < |f.inodes| && i != ino && 0 <= bn < MAXFILE && 0 < MapOf(f, sb, i, bn) < sb.size
      ensures MapOf(k, sb, i, bn) == MapOf(f, sb, i, bn)
      ensures k.blocks[MapOf(f, sb, i, bn)] == f.blocks[MapOf(f, sb, i, bn)]
    {
      PutInodeBlock(h, k, sb, ow, i, bn);
    }
  }

  // ----- itrunc -----

  /** bfree of a direct block and clearing its pointer. */
  lemma ReleaseDirect(fs: Fs, r: Fs, sb: Super, ow: map<nat, Slot>, ino: nat, k: nat, b: nat)
    requires Allocated(fs, sb, ow, {}) && ino < |fs.inodes| && k < NDIRECT && fs.inodes[ino].addrs[k] == b != 0
    requires b < sb.size && InUse(fs, sb, b) && r == SetAddr(MarkFree(fs, sb, b), ino, k, 0)
    ensures Allocated(r, sb, ow - {b}, {})
  {
    var v := SetAddr(fs, ino, k, 0);
    SetDirect(fs, sb, ino, k, 0);
    assert Value(fs, sb, Direct(ino, k)) == b;
    hide Word, Bit, InUse;
    DetachMove(fs, v, sb, ow, {}, Direct(ino, k));
    assert {} + {b} == {b};
    FreeMove(v, sb, ow - {b}, {b}, b);
    assert {b} - {b} == {};
    FreeThenClear(fs, sb, ino, k, b);
  }

  /** The bitmap and the pointers are different places. */
  lemma FreeThenClear(fs: Fs, sb: Super, ino: nat, k: nat, b: nat)
    requires Shape(fs, sb) && ino < |fs.inodes| && k <= NDIRECT && b < sb.size && InUse(fs, sb, b)
    ensures Shape(SetAddr(fs, ino, k, 0), sb) && InUse(SetAddr(fs, ino, k, 0), sb, b)
    ensures MarkFree(SetAddr(fs, ino, k, 0), sb, b) == SetAddr(MarkFree(fs, sb, b), ino, k, 0)
  {}

  /** What itrunc has still to free: the indirect block and its entries from
      `j` on. */
  function Remaining(a: Block, p: nat, j: nat): (r: set<nat>)
    requires j <= NINDIRECT
    decreases NINDIRECT - j
  {
    if j == NINDIRECT then {p}
    else Remaining(a, p, j + 1) + if Word(a, j) == 0 then {} else {Word(a, j)}
  }

  lemma {:induction false} RemainingHas(a: Block, p: nat, j: nat, b: nat)
    requires j <= NINDIRECT
    ensures b in Remaining(a, p, j) <==> b == p || exists k :: j <= k < NINDIRECT && Word(a, k) == b != 0
    decreases NINDIRECT - j
  {
    hide Word;
    if j < NINDIRECT {
      RemainingHas(a, p, j + 1, b);
    }
  }

  /** No block is named twice below an indirect block. */
  ghost predicate DistinctEntries(a: Block, p: nat) {
    && (forall j, k :: 0 <= j < k < NINDIRECT && Word(a, j) != 0 ==> Word(a, j) != Word(a, k))
    && (forall j :: 0 <= j < NINDIRECT ==> Word(a, j) != p)
  }

  lemma RemainingStep(a: Block, p: nat, j: nat)
    requires j < NINDIRECT && DistinctEntries(a, p) && Word(a, j) != 0
    ensures Word(a, j) in Remaining(a, p, j) && Remaining(a, p, j) - {Word(a, j)} == Remaining(a, p, j + 1)
  {
    RemainingHas(a, p, j + 1, Word(a, j));
    hide Word;
  }

  lemma IndirectDistinct(fs: Fs, sb: Super, ow: map<nat, Slot>, ino: nat)
    requires Allocated(fs, sb, ow, {}) && ino < |fs.inodes| && fs.inodes[ino].addrs[NDIRECT] != 0
    ensures DistinctEntries(fs.blocks[fs.inodes[ino].addrs[NDIRECT]], fs.inodes[ino].addrs[NDIRECT])
  {
    hide Word, InUse;
    var p := fs.inodes[ino].addrs[NDIRECT];
    forall j | 0 <= j < NINDIRECT
      ensures Word(fs.blocks[p], j) != p
      ensures Word(fs.blocks[p], j) != 0 ==> Word(fs.blocks[p], j) in ow && ow[Word(fs.blocks[p], j)] == IndEnt(ino, j)
    {
      assert Value(fs, sb, IndEnt(ino, j)) == Word(fs.blocks[p], j);
      assert Value(fs, sb, IndPtr(ino)) == p;
    }
  }

  /** Dropping the indirect pointer leaves exactly those blocks loose. */
  lemma DetachRemaining(fs: Fs, sb: Super, ow: map<nat, Slot>, ino: nat)
    requires Allocated(fs, sb, ow, {}) && ino < |fs.inodes| && fs.inodes[ino].addrs[NDIRECT] != 0
    ensures var p := fs.inodes[ino].addrs[NDIRECT];
            Allocated(SetAddr(fs, ino, NDIRECT, 0), sb, ow - BlocksUnder(ow, ino), Remaining(fs.blocks[p], p, 0))
  {
    var p := fs.inodes[ino].addrs[NDIRECT];
    DetachIndirect(fs, sb, ow, {}, ino);
    hide Allocated, BlocksUnder, Remaining;
    forall b ensures b in Remaining(fs.blocks[p], p, 0) <==> b in BlocksUnder(ow, ino) {
      UnderRemaining(fs, sb, ow, ino, b);
    }
    assert {} + BlocksUnder(ow, ino) == Remaining(fs.blocks[p], p, 0);
  }

  lemma EntryValue(fs: Fs, sb: Super, ino: nat, k: nat)
    requires Shape(fs, sb) && ino < |fs.inodes| && fs.inodes[ino].addrs[NDIRECT] != 0 && k < NINDIRECT
    ensures Value(fs, sb, IndEnt(ino, k)) == Word(fs.blocks[fs.inodes[ino].addrs[NDIRECT]], k)
    ensures Value(fs, sb, IndPtr(ino)) == fs.inodes[ino].addrs[NDIRECT]
  {
    hide Word;
  }

  /** Slots and the blocks they own determine each other. */
  lemma Owner(fs: Fs, sb: Super, ow: map<nat, Slot>, s: Slot, b: nat)
    requires Allocated(fs, sb, ow, {})
    ensures IsSlot(fs, s) && Value(fs, sb, s) != 0 ==> Value(fs, sb, s) in ow && ow[Value(fs, sb, s)] == s
    ensures b in ow ==> IsSlot(fs, ow[b]) && Value(fs, sb, ow[b]) == b && b != 0
  {
    hide Value, InUse;
  }

  lemma UnderRemaining(fs: Fs, sb: Super, ow: map<nat, Slot>, ino: nat, b: nat)
    requires Allocated(fs, sb, ow, {}) && ino < |fs.inodes| && fs.inodes[ino].addrs[NDIRECT] != 0
    ensures var p := fs.inodes[ino].addrs[NDIRECT];
            b in Remaining(fs.blocks[p], p, 0) <==> b in BlocksUnder(ow, ino)
  {
    hide Word, Value, Remaining, Allocated;
    AllocShape(fs, sb, ow, {});
    var p := fs.inodes[ino].addrs[NDIRECT];
    RemainingHas(fs.blocks[p], p, 0, b);
    EntryValue(fs, sb, ino, 0);
    Owner(fs, sb, ow, IndPtr(ino), b);
    if k :| 0 <= k < NINDIRECT && Word(fs.blocks[p], k) == b != 0 {
      EntryValue(fs, sb, ino, k);
      Owner(fs, sb, ow, IndEnt(ino, k), b);
    }
    if b in ow && ow[b].IndEnt? && ow[b].ino == ino {
      EntryValue(fs, sb, ino, ow[b].k);
      Owner(fs, sb, ow, ow[b], b);
    }
  }

  /** A state that differs from `fs` only in the bitmap and in inode `ino`
      shows the same other files. */
  lemma BitmapChange(fs: Fs, r: Fs, sb: Super, ow: map<nat, Slot>, ino: nat)
    requires Allocated(fs, sb, ow, {}) && Shape(r, sb) && |r.inodes| == |fs.inodes|
    requires forall i :: 0 <= i < |fs.inodes| && i != ino ==> r.inodes[i] == fs.inodes[i]
    requires forall c :: 0 <= c < sb.size && !sb.IsBitmap(c) ==> r.blocks[c] == fs.blocks[c]
    ensures OthersKept(fs, r, sb, ino)
  {
    hide Value, InUse, Super.IsBitmap, MapOf, Allocated;
    AllocShape(fs, sb, ow, {});
    forall c | 0 <= c < sb.size && !(sb.bmapstart <= c < sb.nmeta) ensures r.blocks[c] == fs.blocks[c] {
      if sb.IsBitmap(c) { BitmapSpan(sb, c); }
    }
    forall i, bn | 0 <= i < |fs.inodes| && i != ino && 0 <= bn < MAXFILE && 0 < MapOf(fs, sb, i, bn) < sb.size
      ensures MapOf(r, sb, i, bn) == MapOf(fs, sb, i, bn)
      ensures r.blocks[MapOf(fs, sb, i, bn)] == fs.blocks[MapOf(fs, sb, i, bn)]
    {
      BitmapBlockKept(fs, r, sb, ow, ino, i, bn);
    }
  }

  lemma BitmapSpan(sb: Super, c: nat)
    requires sb.Sane() && sb.IsBitmap(c)
    ensures sb.bmapstart <= c < sb.nmeta
  {
  }

  lemma BitmapBlockKept(fs: Fs, r: Fs, sb: Super, ow: map<nat, Slot>, ino: nat, i: nat, bn: nat)
    requires Allocated(fs, sb, ow, {}) && Shape(r, sb) && |r.inodes| == |fs.inodes|
    requires i < |fs.inodes| && r.inodes[i] == fs.inodes[i] && bn < MAXFILE && 0 < MapOf(fs, sb, i, bn) < sb.size
    requires forall c :: 0 <= c < sb.size && !(sb.bmapstart <= c < sb.nmeta) ==> r.blocks[c] == fs.blocks[c]
    ensures MapOf(r, sb, i, bn) == MapOf(fs, sb, i, bn)
    ensures r.blocks[MapOf(fs, sb, i, bn)] == fs.blocks[MapOf(fs, sb, i, bn)]
  {
    hide Word, Allocated;
    AllocShape(fs, sb, ow, {});
    IndirectOwned(fs, sb, ow, {}, i);
    Owner(fs, sb, ow, DataSlot(i, bn), 0);
    DataAbove(fs, sb, ow, MapOf(fs, sb, i, bn));
  }

  /** `fs` differs from `f` only in the bitmap and in the pointers of `ino`. */
  ghost predicate Truncating(f: Fs, fs: Fs, sb: Super, ino: nat) {
    && Shape(f, sb) && Shape(fs, sb) && ino < |f.inodes| == |fs.inodes|
    && fs.inodes[ino].head == f.inodes[ino].head
    && (forall i :: 0 <= i < |f.inodes| && i != ino ==> fs.inodes[i] == f.inodes[i])
    && (forall c :: 0 <= c < sb.size && !sb.IsBitmap(c) ==> fs.blocks[c] == f.blocks[c])
  }

  lemma TruncatingFree(f: Fs, fs: Fs, r: Fs, sb: Super, ino: nat, b: nat)
    requires Truncating(f, fs, sb, ino) && b < sb.size && InUse(fs, sb, b) && r == MarkFree(fs, sb, b)
    ensures Truncating(f, r, sb, ino) && r.inodes == fs.inodes && |r.blocks| == |fs.blocks|
  {
    hide Super.IsBitmap, ClearBit, InUse;
    FreesBitmap(fs, sb, b);
  }

  lemma FreesBitmap(fs: Fs, sb: Super, b: nat)
    requires Shape(fs, sb) && b < sb.size && InUse(fs, sb, b)
    ensures sb.IsBitmap(sb.BitmapBlock(b)) && sb.BitmapBlock(b) < sb.size
  {
    hide Bit;
  }

  /** One step of itrunc's first loop. */
  lemma DirectReleased(f: Fs, fs: Fs, m: Fs, r: Fs, sb: Super, ow: map<nat, Slot>, ino: nat, k: nat, b: nat)
    requires Allocated(fs, sb, ow, {}) && Truncating(f, fs, sb, ino) && k < NDIRECT && fs.inodes[ino].addrs[k] == b != 0
    requires b < sb.size && InUse(fs, sb, b) && m == MarkFree(fs, sb, b) && r == SetAddr(m, ino, k, 0)
    ensures Allocated(r, sb, ow - {b}, {}) && Truncating(f, r, sb, ino)
    ensures b in ow && ow[b] == Direct(ino, k)
  {
    ReleaseDirect(fs, r, sb, ow, ino, k, b);
    TruncatingFree(f, fs, m, sb, ino, b);
    assert Value(fs, sb, Direct(ino, k)) == b;
    hide InUse, Word, MarkFree, Super.IsBitmap;
  }

  /** One step of itrunc's loop over the indirect block. */
  lemma EntryReleased(f: Fs, fs: Fs, r: Fs, sb: Super, ow: map<nat, Slot>, ino: nat, loose: set<nat>, b: nat)
    requires Truncating(f, fs, sb, ino) && Allocated(SetAddr(fs, ino, NDIRECT, 0), sb, ow, loose) && b in loose
    requires b < sb.size && InUse(fs, sb, b) && r == MarkFree(fs, sb, b)
    ensures Truncating(f, r, sb, ino) && Allocated(SetAddr(r, ino, NDIRECT, 0), sb, ow, loose - {b})
    ensures r.inodes == fs.inodes
  {
    FreeThenClear(fs, sb, ino, NDIRECT, b);
    FreeMove(SetAddr(fs, ino, NDIRECT, 0), sb, ow, loose, b);
    TruncatingFree(f, fs, r, sb, ino, b);
    hide Allocated, InUse, MarkFree, Super.IsBitmap;
  }

  lemma LooseInUse(fs: Fs, sb: Super, ow: map<nat, Slot>, ino: nat, loose: set<nat>, b: nat)
    requires Shape(fs, sb) && ino < |fs.inodes|
    requires Allocated(SetAddr(fs, ino, NDIRECT, 0), sb, ow, loose) && b in loose
    ensures b < sb.size && InUse(fs, sb, b)
  {}

  /** A truncated file: no pointers, no bytes, everyone else as before. */
  lemma TruncateEnds(f: Fs, g: Fs, h: Fs, k: Fs, sb: Super, fow: map<nat, Slot>, ow: map<nat, Slot>, ino: nat)
    requires Allocated(f, sb, fow, {}) && Settled(f, sb) && Truncating(f, g, sb, ino) && Allocated(g, sb, ow, {})
    requires h == SetSize(g, ino, 0) && Storable(h.inodes[ino]) && InodeBlock(sb, ino) < |h.blocks| && k == PutInode(h, sb, ino)
    ensures Allocated(k, sb, ow, {}) && Settled(k, sb) && OtherFiles(f, k, sb, ino)
    ensures k.inodes == h.inodes && Content(k, sb, ino) == []
  {
    BitmapChange(f, g, sb, fow, ino);
    SetSizeMove(g, sb, ow, ino, 0);
    SizedOthers(f, g, h, sb, ino);
    assert Mapped(h, sb, ino);
    hide Allocated, Content, PutInode, Settled, OthersKept, Truncating, Mapped;
    SettledAgain(f, h, k, sb, ow, ino);
    PutInodeInodes(h, sb, ino);
  }
}
