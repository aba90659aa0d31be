/** The code of kernel/fs.c between the log and the directories, over the block
    contents that bread shows and log_write stores. */
module InodeLayer {
  import opened Params
  import opened Blocks
  import opened Inodes
  import opened Dinodes
  import opened FileWrites

  /** What readi leaves at its destination, or -1 for a bad user address. */
  datatype ReadResult = Copied(bytes: seq<Byte>) | Fault

  /** writei's return: -1, a byte count, or no return at all. */
  datatype WriteResult = Rejected | Wrote(tot: nat) | WritePanic

  /** A call that may end in panic(). */
  datatype Outcome<T> = Ok(value: T) | Panic

  // ----- balloc followed by the store of its result -----

  /** `f` is `fs` after balloc returned `b`. */
  predicate Balloced(fs: Fs, f: Fs, sb: Super, b: nat) {
    Shape(fs, sb) && b < sb.size && !InUse(fs, sb, b) && f == MarkUsed(fs, sb, b)
  }

  /** No block below `b` is free. */
  predicate UsedBelow(fs: Fs, sb: Super, b: nat)
    requires Shape(fs, sb)
  {
    forall c :: 0 <= c < b && c < sb.size ==> InUse(fs, sb, c)
  }

  lemma AfterBalloc(fs: Fs, f: Fs, sb: Super, ow: map<nat, Slot>, b: nat)
    requires Allocated(fs, sb, ow, {}) && Balloced(fs, f, sb, b)
    ensures Allocated(f, sb, ow, {b}) && Shape(f, sb) && Preserves(fs, f, sb) && f.inodes == fs.inodes
    ensures sb.nmeta <= b && f.blocks[b] == ZeroBlock()
  {
    assert sb.nmeta <= b;
    AllocMove(fs, sb, ow, {}, b);
    AllocPreserves(fs, sb, ow, {}, b);
    assert {} + {b} == {b};
    hide Allocated, Preserves, InUse, Value, ZeroBlock, Super.BitmapBlock;
  }

  /** balloc leaves an inode's indirect block and its entries alone. */
  lemma BallocKeepsEntries(fs: Fs, f: Fs, sb: Super, ow: map<nat, Slot>, b: nat, ino: nat, k: nat)
    requires Allocated(fs, sb, ow, {}) && Balloced(fs, f, sb, b) && ino < |fs.inodes| && k < NINDIRECT
    requires Shape(f, sb) && f.inodes == fs.inodes && fs.inodes[ino].addrs[NDIRECT] != 0
    ensures f.blocks[fs.inodes[ino].addrs[NDIRECT]] == fs.blocks[fs.inodes[ino].addrs[NDIRECT]]
    ensures Value(f, sb, IndEnt(ino, k)) == Value(fs, sb, IndEnt(ino, k))
  {
    IndirectOwned(fs, sb, ow, {}, ino);
    MarkUsedData(fs, sb, b, fs.inodes[ino].addrs[NDIRECT]);
  }

  lemma AttachDirect(f: Fs, r: Fs, sb: Super, ow: map<nat, Slot>, ino: nat, k: nat, b: nat)
    requires Allocated(f, sb, ow, {b}) && ino < |f.inodes| && k < NDIRECT && f.inodes[ino].addrs[k] == 0
    requires r == SetAddr(f, ino, k, b)
    ensures Allocated(r, sb, ow[b := Direct(ino, k)], {}) && Preserves(f, r, sb)
    ensures Value(r, sb, Direct(ino, k)) == b
  {
    hide InUse, Word;
    SetDirect(f, sb, ino, k, b);
    AttachMove(f, r, sb, ow, {b}, Direct(ino, k), b);
    AttachPreserves(f, r, sb, ow, {b}, Direct(ino, k), b);
    assert {b} - {b} == {};
  }

  lemma AttachIndirect(f: Fs, r: Fs, sb: Super, ow: map<nat, Slot>, ino: nat, b: nat)
    requires Allocated(f, sb, ow, {b}) && ino < |f.inodes| && f.inodes[ino].addrs[NDIRECT] == 0
    requires r == SetAddr(f, ino, NDIRECT, b) && b < sb.size && f.blocks[b] == ZeroBlock()
    ensures Allocated(r, sb, ow[b := IndPtr(ino)], {}) && Preserves(f, r, sb)
    ensures forall k :: 0 <= k < NINDIRECT ==> Value(r, sb, IndEnt(ino, k)) == 0
  {
    hide InUse, Word, ZeroBlock;
    SetIndirect(f, sb, ino, b);
    AttachMove(f, r, sb, ow, {b}, IndPtr(ino), b);
    AttachPreserves(f, r, sb, ow, {b}, IndPtr(ino), b);
    assert {b} - {b} == {};
  }

  lemma AttachEntry(f: Fs, r: Fs, sb: Super, ow: map<nat, Slot>, ino: nat, k: nat, b: nat)
    requires Allocated(f, sb, ow, {b}) && ino < |f.inodes| && k < NINDIRECT
    requires f.inodes[ino].addrs[NDIRECT] != 0 && Value(f, sb, IndEnt(ino, k)) == 0 && b < sb.size
    requires r == SetEntry(f, sb, ino, k, b)
    ensures Allocated(r, sb, ow[b := IndEnt(ino, k)], {}) && Preserves(f, r, sb)
    ensures Value(r, sb, IndEnt(ino, k)) == b && r.blocks[b] == f.blocks[b]
  {
    hide Word, Bit, PutWord, InUse;
    IndirectOwned(f, sb, ow, {b}, ino);
    SetEntryRebinds(f, sb, ow, {b}, ino, k, b);
    AttachMove(f, r, sb, ow, {b}, IndEnt(ino, k), b);
    AttachPreserves(f, r, sb, ow, {b}, IndEnt(ino, k), b);
    assert {b} - {b} == {};
  }

  /** Every block in `now` but not in `before` is a bitmap block or in `may`. */
  ghost predicate LogsOnly(sb: Super, before: set<nat>, now: set<nat>, may: set<nat>) {
    forall c :: c in now ==> c in before || (c != 0 && (sb.IsBitmap(c) || c in may))
  }

  /** From blocks `was` to `now`, `logged` grew by blocks above the log region and
      covers everything that changed. */
  ghost predicate Via(sb: Super, was: seq<Block>, before: set<nat>, now: seq<Block>, logged: set<nat>) {
    && |now| == |was| && before <= logged
    && (forall c :: c in logged ==> c in before || sb.inodestart <= c < sb.size)
    && (forall c :: 0 <= c < |was| && now[c] != was[c] ==> c in logged)
  }

  lemma ViaTrans(sb: Super, a: seq<Block>, la: set<nat>, b: seq<Block>, lb: set<nat>, c: seq<Block>, lc: set<nat>)
    requires Via(sb, a, la, b, lb) && Via(sb, b, lb, c, lc)
    ensures Via(sb, a, la, c, lc)
  {}

  lemma ViaNone(sb: Super, a: seq<Block>, la: set<nat>)
    ensures Via(sb, a, la, a, la)
  {}

  /** One log_write. */
  lemma ViaOne(sb: Super, a: seq<Block>, la: set<nat>, c: nat, v: Block)
    requires sb.inodestart <= c < sb.size == |a|
    ensures Via(sb, a, la, a[c := v], la + {c})
  {}

  lemma FreeAbove(fs: Fs, sb: Super, ow: map<nat, Slot>, b: nat)
    requires Allocated(fs, sb, ow, {}) && b < sb.size && !InUse(fs, sb, b)
    ensures sb.inodestart < sb.nmeta <= b && sb.inodestart < sb.BitmapBlock(b) < sb.nmeta <= sb.size == |fs.blocks|
  {
    hide Value, InUse;
    BitmapDistinct(sb, b, b);
  }

  lemma ViaBalloc(fs: Fs, f: Fs, sb: Super, ow: map<nat, Slot>, b: nat, before: set<nat>)
    requires Allocated(fs, sb, ow, {}) && Balloced(fs, f, sb, b)
    ensures Via(sb, fs.blocks, before, f.blocks, before + {sb.BitmapBlock(b), b})
  {
    hide Allocated, Bit, SetBit, ZeroBlock, Via, Super.BitmapBlock;
    FreeAbove(fs, sb, ow, b);
    var m := sb.BitmapBlock(b);
    var mid := fs.blocks[m := SetBit(fs.blocks[m], b % BPB)];
    ViaOne(sb, fs.blocks, before, m, mid[m]);
    ViaOne(sb, mid, before + {m}, b, ZeroBlock());
    ViaTrans(sb, fs.blocks, before, mid, before + {m}, f.blocks, before + {m} + {b});
    assert before + {m} + {b} == before + {m, b};
  }

  /** A block some slot names lies above the metadata. */
  lemma NamedAbove(fs: Fs, sb: Super, ow: map<nat, Slot>, s: Slot)
    requires Allocated(fs, sb, ow, {}) && IsSlot(fs, s) && Value(fs, sb, s) != 0
    ensures sb.inodestart < sb.nmeta <= Value(fs, sb, s) < sb.size == |fs.blocks|
  {
    hide Value, InUse;
  }

  lemma ViaInode(h: Fs, sb: Super, ino: nat, before: set<nat>)
    requires Shape(h, sb) && ino < |h.inodes| && Storable(h.inodes[ino]) && InodeBlock(sb, ino) < |h.blocks|
    ensures Via(sb, h.blocks, before, PutInode(h, sb, ino).blocks, before + {InodeBlock(sb, ino)})
  {
    hide PutDinode;
  }

  lemma MappedAbove(fs: Fs, sb: Super, ow: map<nat, Slot>, ino: nat, bn: nat)
    requires Allocated(fs, sb, ow, {}) && ino < |fs.inodes| && bn < MAXFILE && MapOf(fs, sb, ino, bn) != 0
    ensures sb.inodestart < MapOf(fs, sb, ino, bn) < sb.size == |fs.blocks|
  {
    NamedAbove(fs, sb, ow, DataSlot(ino, bn));
    hide Allocated, Value;
  }

  /** balloc logs a bitmap block and the new block. */
  lemma BallocLogs(sb: Super, before: set<nat>, b: nat, p: nat)
    requires sb.Sane() && b < sb.size && b != 0
    ensures LogsOnly(sb, before, before + {sb.BitmapBlock(b), b}, {b})
    ensures p != 0 ==> LogsOnly(sb, before, before + {sb.BitmapBlock(b), b} + {p}, {b, p})
  {}

  /** Only inode `ino` differs from `was`, and only in its pointers. */
  ghost predicate PointersOnly(was: seq<Inode>, now: seq<Inode>, ino: nat) {
    && ino < |now| == |was|
    && (forall i :: 0 <= i < |now| && i != ino ==> now[i] == was[i])
    && now[ino].head == was[ino].head && now[ino].size == was[ino].size
  }

  /** balloc, then the new block hung in a direct pointer. */
  lemma FilledDirect(fs: Fs, f: Fs, r: Fs, sb: Super, ow: map<nat, Slot>, ino: nat, k: nat, b: nat)
    requires Allocated(fs, sb, ow, {}) && Balloced(fs, f, sb, b)
    requires ino < |fs.inodes| && k < NDIRECT && fs.inodes[ino].addrs[k] == 0
    requires ino < |f.inodes| && k < |f.inodes[ino].addrs| && r == SetAddr(f, ino, k, b)
    ensures Allocated(r, sb, ow[b := Direct(ino, k)], {}) && Shape(r, sb) && Preserves(fs, r, sb)
    ensures 0 < b < sb.size && Value(r, sb, Direct(ino, k)) == b && r.blocks[b] == ZeroBlock()
    ensures PointersOnly(fs.inodes, r.inodes, ino)
    ensures r.inodes[ino].addrs[NDIRECT] == fs.inodes[ino].addrs[NDIRECT]
  {
    AfterBalloc(fs, f, sb, ow, b);
    AttachDirect(f, r, sb, ow, ino, k, b);
    PreservesTrans(fs, f, r, sb);
    hide Allocated, Preserves, Value, Balloced, ZeroBlock;
  }

  lemma FilledIndirect(fs: Fs, f: Fs, r: Fs, sb: Super, ow: map<nat, Slot>, ino: nat, b: nat)
    requires Allocated(fs, sb, ow, {}) && Balloced(fs, f, sb, b)
    requires ino < |fs.inodes| && fs.inodes[ino].addrs[NDIRECT] == 0
    requires ino < |f.inodes| && NDIRECT < |f.inodes[ino].addrs| && r == SetAddr(f, ino, NDIRECT, b)
    ensures Allocated(r, sb, ow[b := IndPtr(ino)], {}) && Shape(r, sb) && Preserves(fs, r, sb)
    ensures 0 < b < sb.size && r.inodes[ino].addrs[NDIRECT] == b
    ensures forall k :: 0 <= k < NINDIRECT ==> Value(r, sb, IndEnt(ino, k)) == 0
    ensures PointersOnly(fs.inodes, r.inodes, ino)
  {
    AfterBalloc(fs, f, sb, ow, b);
    AttachIndirect(f, r, sb, ow, ino, b);
    PreservesTrans(fs, f, r, sb);
    hide Allocated, Preserves, Value, Balloced, ZeroBlock;
  }

  lemma FilledEntry(fs: Fs, f: Fs, r: Fs, sb: Super, ow: map<nat, Slot>, ino: nat, k: nat, b: nat)
    requires Allocated(fs, sb, ow, {}) && Balloced(fs, f, sb, b)
    requires ino < |fs.inodes| && k < NINDIRECT && fs.inodes[ino].addrs[NDIRECT] != 0 && Value(fs, sb, IndEnt(ino, k)) == 0
    requires f.inodes == fs.inodes && |f.blocks| == |fs.blocks|
    requires var p := fs.inodes[ino].addrs[NDIRECT];
             r == f.(blocks := f.blocks[p := PutWord(fs.blocks[p], k, b)])
    ensures Allocated(r, sb, ow[b := IndEnt(ino, k)], {}) && Shape(r, sb) && Preserves(fs, r, sb)
    ensures 0 < b < sb.size && Value(r, sb, IndEnt(ino, k)) == b && r.blocks[b] == ZeroBlock()
  {
    AfterBalloc(fs, f, sb, ow, b);
    BallocKeepsEntries(fs, f, sb, ow, b, ino, k);
    hide Allocated, Preserves, Value, Balloced, ZeroBlock, PutWord;
    AttachEntry(f, r, sb, ow, ino, k, b);
    PreservesTrans(fs, f, r, sb);
  }

  lemma MappedInRange(fs: Fs, sb: Super, ow: map<nat, Slot>, s: Slot)
    requires Allocated(fs, sb, ow, {}) && IsSlot(fs, s)
    ensures Value(fs, sb, s) < sb.size
  {}

  lemma PreservesSelf(fs: Fs, sb: Super)
    requires Shape(fs, sb)
    ensures Preserves(fs, fs, sb)
  {
    hide MapOf;
  }

  /** A stretch of a file inside one block is that stretch of the block. */
  lemma ContentChunk(fs: Fs, sb: Super, ino: nat, p: nat, m: nat)
    requires Shape(fs, sb) && ino < |fs.inodes| && Mapped(fs, sb, ino)
    requires p + m <= fs.inodes[ino].size && InBlock(p) + m <= BSIZE && 0 < m
    ensures BlockNo(p) < MAXFILE && 0 < MapOf(fs, sb, ino, BlockNo(p)) < sb.size
    ensures Content(fs, sb, ino)[p..p + m] == fs.blocks[MapOf(fs, sb, ino, BlockNo(p))][InBlock(p)..InBlock(p) + m]
  {
    hide MapOf, BlockNo, InBlock, Content;
    ContentAt(fs, sb, ino, p);
    var x, y := Content(fs, sb, ino)[p..p + m], fs.blocks[MapOf(fs, sb, ino, BlockNo(p))][InBlock(p)..InBlock(p) + m];
    forall i | 0 <= i < m ensures x[i] == y[i] {
      SplitOffset(p, i);
      ContentAt(fs, sb, ino, p + i);
    }
  }

  lemma Adjoin<T>(s: seq<T>, i: nat, j: nat, k: nat)
    requires i <= j <= k <= |s|
    ensures s[i..j] + s[j..k] == s[i..k]
  {}

  lemma BlockInFile(p: nat)
    requires p < MAXFILE * BSIZE
    ensures BlockNo(p) < MAXFILE
  {}

  lemma FirstChunk(off: nat, n: nat)
    ensures AfterChunks(off, n, 0) == 0
  {}

  // ----- bookkeeping of writei's log traffic -----

  lemma NothingLogged(sb: Super, before: set<nat>, may: set<nat>)
    ensures LogsOnly(sb, before, before, {} + may)
  {}

  lemma LogsNone(sb: Super, before: set<nat>)
    ensures LogsOnly(sb, before, before, {})
  {}

  lemma LogsTrans(sb: Super, before: set<nat>, mid: set<nat>, now: set<nat>)
    requires LogsOnly(sb, before, mid, {}) && LogsOnly(sb, mid, now, {})
    ensures LogsOnly(sb, before, now, {})
  {}

  lemma LogsGrow(sb: Super, before: set<nat>, mid: set<nat>, now: set<nat>, touched: set<nat>, a: nat, p: nat, q: nat)
    requires LogsOnly(sb, before, mid, touched + {p}) && LogsOnly(sb, mid, now, {a, q}) && (p != 0 ==> q == p)
    ensures LogsOnly(sb, before, now, touched + {a} + {q})
  {}

  lemma LogsInode(sb: Super, before: set<nat>, mid: set<nat>, touched: set<nat>, q: nat, ib: nat)
    requires LogsOnly(sb, before, mid, touched + {q}) && ib != 0
    ensures LogsOnly(sb, before, mid + {ib}, touched + {q, ib})
  {}

  /** No more than `k` blocks, for any number of chunks that covers the data. */
  ghost predicate FewTouched(off: nat, n: nat, k: nat) {
    forall c :: AfterChunks(off, n, c) == n ==> k <= c
  }

  lemma NoneTouched(off: nat, n: nat)
    ensures FewTouched(off, n, 0)
  {}

  lemma MoreTouched(off: nat, n: nat, c: nat, touched: set<nat>, a: nat)
    requires |touched| <= c && AfterChunks(off, n, c) < n
    ensures |touched + {a}| <= c + 1 && FewTouched(off, n, |touched + {a}|)
  {
    hide AfterChunks;
    forall d: nat | AfterChunks(off, n, d) == n ensures |touched + {a}| <= d {
      if d <= c {
        ChunksDone(off, n, d, c);
      }
    }
  }

  // ----- the end of writei -----

  /** `k` is `f` with `bytes` stored in file `ino` at `off`, all else equal. */
  ghost predicate Stored(f: Fs, k: Fs, sb: Super, ino: nat, off: nat, bytes: seq<Byte>) {
    && Shape(f, sb) && Shape(k, sb) && ino < |f.inodes| && OtherFiles(f, k, sb, ino)
    && Mapped(f, sb, ino) && Mapped(k, sb, ino) && off <= f.inodes[ino].size
    && Content(k, sb, ino) == Written(Content(f, sb, ino), off, bytes)
  }

  lemma WriteSized(f: Fs, g: Fs, h: Fs, sb: Super, ow: map<nat, Slot>, ino: nat, off: nat, data: seq<Byte>, tot: nat)
    requires Writing(f, g, sb, ino, off, data, tot) && Allocated(g, sb, ow, {}) && OnDisk(f, sb, ino)
    requires ino < |g.inodes|
    requires h == SetSize(g, ino, if off + tot > f.inodes[ino].size then off + tot else f.inodes[ino].size)
    ensures Allocated(h, sb, ow, {}) && Storable(h.inodes[ino]) && InodeBlock(sb, ino) < |h.blocks| && InodeBlock(sb, ino) != 0
  {
    WritingEnds(f, g, h, sb, ow, ino, off, data, tot);
    StillStorable(h, sb, ow, ino, f.inodes[ino]);
    hide Content;
  }

  lemma WriteSettles(f: Fs, g: Fs, h: Fs, k: Fs, sb: Super, ow: map<nat, Slot>, ino: nat, off: nat, data: seq<Byte>, tot: nat)
    requires Writing(f, g, sb, ino, off, data, tot) && Allocated(g, sb, ow, {}) && Settled(f, sb)
    requires ino < |g.inodes|
    requires h == SetSize(g, ino, if off + tot > f.inodes[ino].size then off + tot else f.inodes[ino].size)
    requires Storable(h.inodes[ino]) && InodeBlock(sb, ino) < |h.blocks| && k == PutInode(h, sb, ino)
    ensures Allocated(k, sb, ow, {}) && Settled(k, sb) && Stored(f, k, sb, ino, off, data[..tot])
  {
    WritingEnds(f, g, h, sb, ow, ino, off, data, tot);
    hide Content, Allocated, PutInode, Storable, Written;
    SettledAgain(f, h, k, sb, ow, ino);
    assert Mapped(k, sb, ino);
  }

  // ----- itrunc -----

  /** `now` is `was` without blocks of `ino`. */
  ghost predicate Released(was: map<nat, Slot>, now: map<nat, Slot>, ino: nat) {
    && (forall b :: b in now ==> b in was && now[b] == was[b])
    && (forall b :: b in was && b !in now ==> was[b].ino == ino)
  }

  lemma ReleasedStep(was: map<nat, Slot>, now: map<nat, Slot>, ino: nat, b: nat)
    requires Released(was, now, ino) && b in now && now[b].ino == ino
    ensures Released(was, now - {b}, ino)
  {}

  lemma ReleasedNone(ow: map<nat, Slot>, ino: nat)
    ensures Released(ow, ow, ino)
  {}

  lemma NoPointer(fs: Fs, sb: Super, s: Slot)
    requires Shape(fs, sb) && IsSlot(fs, s) && fs.inodes[s.ino].addrs == seq(NDIRECT + 1, _ => 0)
    ensures Value(fs, sb, s) == 0
  {
    hide Word;
  }

  lemma OwnerAt(fs: Fs, sb: Super, ow: map<nat, Slot>, b: nat)
    requires Allocated(fs, sb, ow, {}) && b in ow
    ensures Shape(fs, sb) && IsSlot(fs, ow[b]) && Value(fs, sb, ow[b]) == b != 0
  {
    hide Value, InUse;
  }

  /** A file without pointers owns no block. */
  lemma OwnsNone(fs: Fs, sb: Super, ow: map<nat, Slot>, ino: nat)
    requires Allocated(fs, sb, ow, {}) && ino < |fs.inodes| && fs.inodes[ino].addrs == seq(NDIRECT + 1, _ => 0)
    ensures forall b :: b in ow ==> ow[b].ino != ino
  {
    hide Allocated, Value;
    forall b | b in ow ensures ow[b].ino != ino {
      OwnerAt(fs, sb, ow, b);
      if ow[b].ino == ino { NoPointer(fs, sb, ow[b]); }
    }
  }

  lemma DirectInUse(fs: Fs, sb: Super, ow: map<nat, Slot>, ino: nat, k: nat)
    requires Allocated(fs, sb, ow, {}) && ino < |fs.inodes| && k < NDIRECT && fs.inodes[ino].addrs[k] != 0
    ensures Shape(fs, sb) && fs.inodes[ino].addrs[k] < sb.size && InUse(fs, sb, fs.inodes[ino].addrs[k])
    ensures fs.inodes[ino].addrs[k] in ow && ow[fs.inodes[ino].addrs[k]].ino == ino
  {
    assert Value(fs, sb, Direct(ino, k)) == fs.inodes[ino].addrs[k];
  }

  lemma RemainingSkip(a: Block, p: nat, j: nat)
    requires j < NINDIRECT && Word(a, j) == 0
    ensures Remaining(a, p, j) == Remaining(a, p, j + 1)
  {}

  lemma RemainingLast(a: Block, p: nat)
    ensures Remaining(a, p, NINDIRECT) == {p}
  {}

  lemma TruncatingSelf(f: Fs, sb: Super, ino: nat)
    requires Shape(f, sb) && ino < |f.inodes|
    ensures Truncating(f, f, sb, ino)
  {}

  lemma ReleasedTrans(a: map<nat, Slot>, b: map<nat, Slot>, c: map<nat, Slot>, ino: nat)
    requires Released(a, b, ino) && Released(b, c, ino)
    ensures Released(a, c, ino)
  {
  }

  lemma ReleasedUnder(ow: map<nat, Slot>, ino: nat)
    ensures Released(ow, ow - BlocksUnder(ow, ino), ino)
  {
  }

  lemma SettledAt(fs: Fs, sb: Super, ino: nat)
    requires Settled(fs, sb) && ino < |fs.inodes|
    ensures Shape(fs, sb) && OnDisk(fs, sb, ino)
  {
    hide OnDisk, Mapped;
  }

  lemma TruncatingShape(f: Fs, g: Fs, sb: Super, ino: nat)
    requires Truncating(f, g, sb, ino)
    ensures ino < |g.inodes| == |f.inodes| && Shape(g, sb) && g.inodes[ino].head == f.inodes[ino].head
  {}

  lemma TruncatingClear(f: Fs, g: Fs, r: Fs, sb: Super, ino: nat)
    requires Truncating(f, g, sb, ino) && r == SetAddr(g, ino, NDIRECT, 0)
    ensures Truncating(f, r, sb, ino)
  {
    hide Super.IsBitmap;
  }

  lemma TruncStorable(f: Fs, g: Fs, h: Fs, sb: Super, ow: map<nat, Slot>, ino: nat)
    requires Truncating(f, g, sb, ino) && Allocated(g, sb, ow, {}) && OnDisk(f, sb, ino) && h == SetSize(g, ino, 0)
    ensures Storable(h.inodes[ino]) && InodeBlock(sb, ino) < |h.blocks|
  {
    SetSizeMove(g, sb, ow, ino, 0);
    StillStorable(h, sb, ow, ino, f.inodes[ino]);
  }

  // ----- mkfs -----

  /** A disk without files, its bitmap done up to block b. */
  ghost predicate Blank(blocks: seq<Block>, sb: Super, b: nat) {
    && sb.Sane() && |blocks| == sb.size
    && (forall c :: 0 <= c < sb.bmapstart ==> blocks[c] == ZeroBlock())
    && (forall c :: 0 <= c < sb.size ==> BitSet(blocks, sb, c) == (c < b))
  }

  predicate BitSet(blocks: seq<Block>, sb: Super, c: nat)
    requires sb.Sane() && c < sb.size == |blocks|
  {
    BitmapDistinct(sb, c, c);
    Bit(blocks[sb.BitmapBlock(c)], c % BPB)
  }

  lemma {:induction false} NoBits(k: nat)
    ensures !NatBit(0, k)
  {
    if k > 0 { NoBits(k - 1); }
  }

  lemma BlankStarts(blocks: seq<Block>, sb: Super)
    requires sb.Sane() && |blocks| == sb.size && forall c :: 0 <= c < sb.size ==> blocks[c] == ZeroBlock()
    ensures Blank(blocks, sb, 0)
  {
    forall c | 0 <= c < sb.size ensures !BitSet(blocks, sb, c) {
      BitmapDistinct(sb, c, c);
      NoBits(c % BPB % 8);
    }
    hide BitSet;
  }

  lemma BlankStep(blocks: seq<Block>, sb: Super, b: nat)
    requires Blank(blocks, sb, b) && b < sb.nmeta
    ensures var m := sb.BitmapBlock(b);
            m < sb.size && !Bit(blocks[m], b % BPB) && Blank(blocks[m := SetBit(blocks[m], b % BPB)], sb, b + 1)
  {
    hide ZeroBlock, Bit, SetBit;
    BitmapDistinct(sb, b, b);
    var m := sb.BitmapBlock(b);
    assert !BitSet(blocks, sb, b);
    var now := blocks[m := SetBit(blocks[m], b % BPB)];
    forall c | 0 <= c < sb.size ensures BitSet(now, sb, c) == (c < b + 1) {
      assert BitSet(blocks, sb, c) == (c < b);
      BitmapDistinct(sb, b, c);
      SetBitAt(blocks[m], b % BPB, c % BPB);
    }
  }

  function NoFile(): (ip: Inode) { Inode([0, 0], 0, seq(NDIRECT + 1, _ => 0)) }

  lemma ZeroDinode(slot: nat)
    requires slot < IPB
    ensures Storable(NoFile()) && GetDinode(ZeroBlock(), slot) == NoFile()
  {
    forall i | 0 <= i < 16 ensures DinodeWord(GetDinode(ZeroBlock(), slot), i) == DinodeWord(NoFile(), i) {
      assert SlotWord(ZeroBlock(), slot, i) == 0;
    }
    hide ZeroBlock, GetDinode;
    DinodeExtensional(GetDinode(ZeroBlock(), slot), NoFile());
  }

  lemma BlankAllocated(fs: Fs, sb: Super)
    requires Blank(fs.blocks, sb, sb.nmeta) && forall i :: 0 <= i < |fs.inodes| ==> fs.inodes[i] == NoFile()
    ensures Allocated(fs, sb, map[], {})
  {
    hide ZeroBlock, Bit;
    assert Shape(fs, sb);
    forall s | IsSlot(fs, s) ensures Value(fs, sb, s) == 0 { NoPointer(fs, sb, s); }
    forall b | 0 <= b < sb.size ensures InUse(fs, sb, b) <==> b < sb.nmeta { assert BitSet(fs.blocks, sb, b) == (b < sb.nmeta); }
    hide Value, InUse;
  }

  lemma BlankSettled(fs: Fs, sb: Super)
    requires Blank(fs.blocks, sb, sb.nmeta)
    requires forall i :: 0 <= i < |fs.inodes| ==> fs.inodes[i] == NoFile() && InodeBlock(sb, i) < sb.bmapstart
    ensures Settled(fs, sb) && forall i :: 0 <= i < |fs.inodes| ==> Content(fs, sb, i) == []
  {
    hide ZeroBlock, MapOf, GetDinode, Storable, BitSet;
    forall i | 0 <= i < |fs.inodes| ensures OnDisk(fs, sb, i) { ZeroDinode(i % IPB); }
  }

  // ----- filewrite -----

  /** Bytes per transaction, kernel/file.c:155. */
  const CHUNKMAX: nat := (MAXOPBLOCKS - 1 - 1 - 2) / 2 * BSIZE

  /** The range of the first transaction of a filewrite of n bytes is refused, or
      there is none. */
  predicate NothingTried(size: nat, off: nat, n: nat) {
    n == 0 || off > size || off + (if n > CHUNKMAX then CHUNKMAX else n) > MAXFILE * BSIZE
  }

  /** Once the first chunk is done, the next ones are whole blocks. */
  lemma {:induction false} ChunksAligned(off: nat, n: nat, c: nat)
    requires c > 0
    ensures AfterChunks(off, n, c) == n || (AfterChunks(off, n, c) > BSIZE * (c - 1) && InBlock(off + AfterChunks(off, n, c)) == 0)
  {
    if c > 1 {
      ChunksAligned(off, n, c - 1);
    }
  }

  lemma FourChunks(off: nat, n: nat)
    requires n <= CHUNKMAX
    ensures AfterChunks(off, n, 4) == n
  {
    ChunksAligned(off, n, 4);
  }

  lemma SevenBlocks(sb: Super, logged: set<nat>, touched: set<nat>, p: nat, ib: nat, off: nat, n: nat)
    requires LogsOnly(sb, {}, logged, touched + {p, ib}) && sb.size <= BPB
    requires FewTouched(off, n, |touched|) && AfterChunks(off, n, 4) == n
    ensures |logged| <= 7
  {
    hide AfterChunks;
    var all := touched + {p, ib, sb.bmapstart};
    assert logged <= all;
    Smaller(logged, all);
    assert all == touched + {p} + {ib} + {sb.bmapstart};
  }

  /** One bitmap block and an inode block. */
  lemma TwoBlocks(sb: Super, logged: set<nat>, ib: nat)
    requires LogsOnly(sb, {}, logged, {}) && sb.size <= BPB
    ensures |logged + {ib}| <= 2
  {
    assert logged + {ib} <= {sb.bmapstart, ib};
    Smaller(logged + {ib}, {sb.bmapstart, ib});
  }

  /** Where the range test stops a filewrite. */
  lemma LastChunk(off: nat, n: nat, c: nat, n1: nat)
    requires n1 <= CHUNKMAX && off + c * CHUNKMAX <= MAXFILE * BSIZE < off + c * CHUNKMAX + n1 <= off + n
    ensures MAXFILE * BSIZE < off + n && c * CHUNKMAX == (MAXFILE * BSIZE - off) / CHUNKMAX * CHUNKMAX
  {
    DivBetween(MAXFILE * BSIZE - off, c);
  }

  lemma DivBetween(x: nat, c: nat)
    requires c * CHUNKMAX <= x < c * CHUNKMAX + CHUNKMAX
    ensures x / CHUNKMAX == c
  {
    assert CHUNKMAX == 3072;
  }

  lemma SizeBound(f: Fs, sb: Super, ino: nat)
    requires Settled(f, sb) && ino < |f.inodes|
    ensures f.inodes[ino].size <= MAXFILE * BSIZE
  {
    hide MapOf, OnDisk;
    assert Mapped(f, sb, ino);
  }

  lemma {:induction false} Smaller(x: set<nat>, y: set<nat>)
    requires x <= y
    ensures |x| <= |y|
  {
    if x != {} {
      var e :| e in x;
      Smaller(x - {e}, y - {e});
    }
  }

  lemma StoredBounds(f: Fs, k: Fs, sb: Super, ino: nat, off: nat, bytes: seq<Byte>)
    requires Stored(f, k, sb, ino, off, bytes)
    ensures ino < |k.inodes| && off + |bytes| <= k.inodes[ino].size <= MAXFILE * BSIZE < UINT_RANGE
  {
    hide MapOf;
  }

  lemma WrittenTwice(c: seq<Byte>, off: nat, x: seq<Byte>, y: seq<Byte>)
    requires off <= |c|
    ensures off + |x| <= |Written(c, off, x)|
    ensures Written(Written(c, off, x), off + |x|, y) == Written(c, off, x + y)
  {}

  /** The file system after a transaction of filewrite: the first `upto` bytes are
      stored, and the transaction logged `logged`. */
  datatype Mark = Mark(fs: Fs, owner: map<nat, Slot>, upto: nat, logged: set<nat>)

  ghost predicate MarkOk(sb: Super, f: Fs, ino: nat, off: nat, data: seq<Byte>, marks: seq<Mark>, i: nat)
    requires i < |marks|
  {
    var m := marks[i];
    && Allocated(m.fs, sb, m.owner, {}) && Settled(m.fs, sb) && m.upto <= |data|
    && (i == 0 ==> m.fs == f && m.upto == 0)
    && (i > 0 ==> Stored(f, m.fs, sb, ino, off, data[..m.upto]) && Via(sb, marks[i - 1].fs.blocks, {}, m.fs.blocks, m.logged))
    && (i + 1 < |marks| ==> m.upto == i * CHUNKMAX)
  }

  /** All transactions of a filewrite, in order; all but the last are whole chunks. */
  ghost predicate History(sb: Super, f: Fs, ino: nat, off: nat, data: seq<Byte>, marks: seq<Mark>) {
    |marks| > 0 && forall i :: 0 <= i < |marks| ==> MarkOk(sb, f, ino, off, data, marks, i)
  }

  lemma HistoryStarts(sb: Super, f: Fs, ow: map<nat, Slot>, ino: nat, off: nat, data: seq<Byte>)
    requires Allocated(f, sb, ow, {}) && Settled(f, sb)
    ensures History(sb, f, ino, off, data, [Mark(f, ow, 0, {})])
  {
    hide Allocated, Settled, Stored, Via;
  }

  lemma HistoryGrows(sb: Super, f: Fs, ino: nat, off: nat, data: seq<Byte>, marks: seq<Mark>, m: Mark)
    requires History(sb, f, ino, off, data, marks) && marks[|marks| - 1].upto == (|marks| - 1) * CHUNKMAX
    requires Allocated(m.fs, sb, m.owner, {}) && Settled(m.fs, sb) && m.upto <= |data| && Stored(f, m.fs, sb, ino, off, data[..m.upto])
    requires Via(sb, marks[|marks| - 1].fs.blocks, {}, m.fs.blocks, m.logged)
    ensures History(sb, f, ino, off, data, marks + [m])
  {
    hide Allocated, Settled, Stored, Via;
    forall i | 0 <= i < |marks| + 1 ensures MarkOk(sb, f, ino, off, data, marks + [m], i) {
      if i < |marks| { assert MarkOk(sb, f, ino, off, data, marks, i); }
    }
  }

  /** Two adjacent stores are one. */
  lemma StoredTwice(f: Fs, g: Fs, k: Fs, sb: Super, ino: nat, off: nat, data: seq<Byte>, i: nat, tot: nat, n1: nat)
    requires i + n1 <= |data| && tot <= n1
    requires Stored(f, g, sb, ino, off, data[..i]) && Stored(g, k, sb, ino, off + i, data[i..i + n1][..tot])
    ensures Stored(f, k, sb, ino, off, data[..i + tot])
  {
    hide Content, Mapped, Written;
    WrittenTwice(Content(f, sb, ino), off, data[..i], data[i..i + n1][..tot]);
    assert data[..i] + data[i..i + n1][..tot] == data[..i + tot];
    hide MapOf;
  }

  class FileSystem {
    const sb: Super
    var blocks: seq<Block>
    var inodes: seq<Inode>
    ghost var owner: map<nat, Slot>
    ghost var logged: set<nat>     // blocks passed to log_write

    ghost function State(): (fs: Fs)
      reads this
    {
      Fs(blocks, inodes)
    }

    /** mkfs without files: all blocks zero, and the metadata marked in use. */
    constructor (layout: Super, n: nat)
      requires layout.Sane() && forall i :: 0 <= i < n ==> InodeBlock(layout, i) < layout.bmapstart
      ensures Valid() && sb == layout && Blank(blocks, sb, sb.nmeta) && logged == {}
      ensures |inodes| == n && forall i :: 0 <= i < n ==> inodes[i] == NoFile()
    {
      sb, owner, logged := layout, map[], {};
      blocks := seq(layout.size, _ => ZeroBlock());
      inodes := seq(n, _ => NoFile());
      new;
      hide *;
      BlankStarts(blocks, sb);
      MarkMetadata();
      BlankAllocated(State(), sb);
      BlankSettled(State(), sb);
    }

    /** mkfs's balloc() */
    method MarkMetadata()
      requires Blank(blocks, sb, 0)
      modifies `blocks
      ensures Blank(blocks, sb, sb.nmeta)
    {
      hide Bit, SetBit, ZeroBlock, BitSet;
      for b := 0 to sb.nmeta
        invariant Blank(blocks, sb, b)
      {
        BlankStep(blocks, sb, b);
        var m := sb.BitmapBlock(b);
        blocks := blocks[m := SetBit(blocks[m], b % BPB)];
      }
    }

    /** Bitmap and pointers agree, with `loose` blocks in hand. */
    ghost predicate Sound(loose: set<nat>)
      reads this
    {
      Allocated(State(), sb, owner, loose)
    }

    /** No block is free. */
    ghost predicate Full()
      reads this
    {
      Shape(State(), sb) && UsedBelow(State(), sb, sb.size)
    }

    /** Take the first free block, zeroed; panic only when none is free. */
    method Balloc(ghost loose: set<nat>) returns (r: Outcome<nat>)
      requires Sound(loose)
      modifies `blocks, `logged
      ensures r.Panic? ==> State() == old(State()) && Full()
      ensures r.Ok? ==> Balloced(old(State()), State(), sb, r.value) && UsedBelow(old(State()), sb, r.value)
      ensures r.Ok? ==> r.value < sb.size == |blocks|
      ensures r.Ok? ==> logged == old(logged) + {sb.BitmapBlock(r.value), r.value}
    {
      ghost var fs := State();
      assert Shape(fs, sb);
      hide Allocated, Bit, SetBit, ZeroBlock, Super.BitmapBlock;
      var b := 0;
      ghost var row: nat := 0;
      while b < sb.size
        invariant b == BPB * row && blocks == fs.blocks && logged == old(logged)
        invariant forall c :: 0 <= c < b && c < sb.size ==> InUse(fs, sb, c)
      {
        BitmapDistinct(sb, b, b);
        var bp := blocks[sb.BitmapBlock(b)];
        var bi := 0;
        while bi < BPB && b + bi < sb.size
          invariant 0 <= bi <= BPB && blocks == fs.blocks && logged == old(logged)
          invariant forall c :: 0 <= c < b + bi && c < sb.size ==> InUse(fs, sb, c)
        {
          SameBitmapBlock(row, bi);
          SameBitmapBlock(row, 0);
          if !Bit(bp, bi) {
            blocks := blocks[sb.BitmapBlock(b) := SetBit(bp, bi)];
            blocks := blocks[b + bi := ZeroBlock()];
            logged := logged + {sb.BitmapBlock(b), b + bi};
            return Ok(b + bi);
          }
          bi := bi + 1;
        }
        b, row := b + BPB, row + 1;
      }
      return Panic;
    }

    /** Mark a block free; panic when it already is. */
    method Bfree(b: nat) returns (panic: bool)
      requires Shape(State(), sb) && b < sb.size
      modifies `blocks, `logged
      ensures panic == !InUse(old(State()), sb, b)
      ensures panic ==> State() == old(State())
      ensures !panic ==> State() == MarkFree(old(State()), sb, b)
      ensures LogsOnly(sb, old(logged), logged, {}) && Via(sb, old(blocks), old(logged), blocks, logged)
    {
      BitmapDistinct(sb, b, b);
      var bp := blocks[sb.BitmapBlock(b)];
      if !Bit(bp, b % BPB) {
        return true;
      }
      blocks := blocks[sb.BitmapBlock(b) := ClearBit(bp, b % BPB)];
      logged := logged + {sb.BitmapBlock(b)};
      return false;
    }

    /** addrs[k] = balloc() */
    method FillDirect(ino: nat, k: nat) returns (r: Outcome<nat>)
      requires Sound({}) && ino < |inodes| && k < NDIRECT && inodes[ino].addrs[k] == 0
      modifies `blocks, `inodes, `owner, `logged
      ensures r.Panic? ==> Full()
      ensures r.Ok? ==> Sound({}) && Preserves(old(State()), State(), sb) && PointersOnly(old(inodes), inodes, ino)
      ensures r.Ok? ==> 0 < r.value < sb.size && Value(State(), sb, Direct(ino, k)) == r.value
      ensures r.Ok? ==> inodes[ino].addrs[NDIRECT] == old(inodes)[ino].addrs[NDIRECT]
      ensures r.Ok? ==> blocks[r.value] == ZeroBlock() && LogsOnly(sb, old(logged), logged, {r.value})
      ensures r.Ok? ==> Via(sb, old(blocks), old(logged), blocks, logged)
    {
      ghost var fs := State();
      assert Shape(fs, sb);
      hide Allocated, Preserves, Value, Balloced, UsedBelow, PointersOnly, LogsOnly, ZeroBlock, Super.BitmapBlock, Via;
      r := Balloc({});
      if r.Panic? {
        return;
      }
      ghost var f := State();
      inodes := inodes[ino := inodes[ino].(addrs := inodes[ino].addrs[k := r.value])];
      FilledDirect(fs, f, State(), sb, owner, ino, k, r.value);
      ViaBalloc(fs, f, sb, owner, r.value, old(logged));
      BallocLogs(sb, old(logged), r.value, 0);
      owner := owner[r.value := Direct(ino, k)];
    }

    /** addrs[NDIRECT] = balloc() */
    method FillIndirect(ino: nat) returns (r: Outcome<nat>)
      requires Sound({}) && ino < |inodes| && inodes[ino].addrs[NDIRECT] == 0
      modifies `blocks, `inodes, `owner, `logged
      ensures r.Panic? ==> Full()
      ensures r.Ok? ==> Sound({}) && Preserves(old(State()), State(), sb) && PointersOnly(old(inodes), inodes, ino)
      ensures r.Ok? ==> inodes[ino].addrs[NDIRECT] == r.value != 0
      ensures r.Ok? ==> forall k :: 0 <= k < NINDIRECT ==> Value(State(), sb, IndEnt(ino, k)) == 0
      ensures r.Ok? ==> LogsOnly(sb, old(logged), logged, {r.value})
      ensures r.Ok? ==> Via(sb, old(blocks), old(logged), blocks, logged)
    {
      ghost var fs := State();
      assert Shape(fs, sb);
      hide Allocated, Preserves, Value, Balloced, UsedBelow, PointersOnly, LogsOnly, ZeroBlock, Super.BitmapBlock, Via;
      r := Balloc({});
      if r.Panic? {
        return;
      }
      ghost var f := State();
      inodes := inodes[ino := inodes[ino].(addrs := inodes[ino].addrs[NDIRECT := r.value])];
      FilledIndirect(fs, f, State(), sb, owner, ino, r.value);
      ViaBalloc(fs, f, sb, owner, r.value, old(logged));
      BallocLogs(sb, old(logged), r.value, 0);
      owner := owner[r.value := IndPtr(ino)];
    }

    /** a[k] = balloc() in the indirect block */
    method FillEntry(ino: nat, k: nat) returns (r: Outcome<nat>)
      requires Sound({}) && ino < |inodes| && k < NINDIRECT && inodes[ino].addrs[NDIRECT] != 0
      requires Value(State(), sb, IndEnt(ino, k)) == 0
      modifies `blocks, `owner, `logged
      ensures r.Panic? ==> Full()
      ensures r.Ok? ==> Sound({}) && Preserves(old(State()), State(), sb)
      ensures r.Ok? ==> 0 < r.value < sb.size && Value(State(), sb, IndEnt(ino, k)) == r.value
      ensures r.Ok? ==> blocks[r.value] == ZeroBlock()
      ensures r.Ok? ==> LogsOnly(sb, old(logged), logged, {r.value, inodes[ino].addrs[NDIRECT]})
      ensures r.Ok? ==> Via(sb, old(blocks), old(logged), blocks, logged)
    {
      ghost var fs := State();
      assert Shape(fs, sb);
      assert Value(fs, sb, IndPtr(ino)) == inodes[ino].addrs[NDIRECT];
      hide Allocated, Preserves, Value, Balloced, UsedBelow, LogsOnly, ZeroBlock, Super.BitmapBlock, PutWord, Via;
      NamedAbove(fs, sb, owner, IndPtr(ino));
      var p := inodes[ino].addrs[NDIRECT];
      var bp := blocks[p];
      r := Balloc({});
      if r.Panic? {
        return;
      }
      ghost var f, mid := State(), logged;
      ViaBalloc(fs, f, sb, owner, r.value, old(logged));
      ViaOne(sb, blocks, logged, p, PutWord(bp, k, r.value));
      blocks := blocks[p := PutWord(bp, k, r.value)];
      logged := logged + {p};
      ViaTrans(sb, fs.blocks, old(logged), f.blocks, mid, blocks, logged);
      FilledEntry(fs, f, State(), sb, owner, ino, k, r.value);
      BallocLogs(sb, old(logged), r.value, p);
      owner := owner[r.value := IndEnt(ino, k)];
    }

    /** The disk block of file block `bn`, allocating it (and the indirect
        block) if need be. A mapped block is returned without any change. */
    method Bmap(ino: nat, bn: nat) returns (r: Outcome<nat>)
      requires Sound({}) && ino < |inodes|
      modifies `blocks, `inodes, `owner, `logged
      ensures r.Panic? ==> bn >= MAXFILE || Full()
      ensures r.Ok? ==> bn < MAXFILE && Sound({}) && Preserves(old(State()), State(), sb)
      ensures r.Ok? ==> 0 < r.value < sb.size && MapOf(State(), sb, ino, bn) == r.value
      ensures bn < MAXFILE && MapOf(old(State()), sb, ino, bn) != 0 ==>
                r.Ok? && State() == old(State()) && owner == old(owner) && logged == old(logged)
      ensures r.Ok? && MapOf(old(State()), sb, ino, bn) == 0 ==> blocks[r.value] == ZeroBlock()
      ensures r.Ok? ==> PointersOnly(old(inodes), inodes, ino)
      ensures r.Ok? ==> LogsOnly(sb, old(logged), logged, {r.value, inodes[ino].addrs[NDIRECT]})
      ensures r.Ok? ==> Via(sb, old(blocks), old(logged), blocks, logged)
      ensures r.Ok? && old(inodes)[ino].addrs[NDIRECT] != 0 ==>
                inodes[ino].addrs[NDIRECT] == old(inodes)[ino].addrs[NDIRECT]
    {
      hide Word, ZeroBlock, InUse, Super.IsBitmap, Via;
      ViaNone(sb, blocks, logged);
      if bn < NDIRECT {
        var addr := inodes[ino].addrs[bn];
        MappedInRange(State(), sb, owner, Direct(ino, bn));
        if addr == 0 {
          r := FillDirect(ino, bn);
          return;
        }
        PreservesSelf(State(), sb);
        return Ok(addr);
      }
      var k := bn - NDIRECT;
      if k < NINDIRECT {
        ghost var fs := State();
        if inodes[ino].addrs[NDIRECT] == 0 {
          var a := FillIndirect(ino);
          if a.Panic? {
            return Panic;
          }
        } else {
          PreservesSelf(State(), sb);
        }
        ghost var g, mid := State(), logged;
        MappedInRange(g, sb, owner, IndEnt(ino, k));
        var addr := Word(blocks[inodes[ino].addrs[NDIRECT]], k);
        if addr == 0 {
          r := FillEntry(ino, k);
          if r.Ok? {
            PreservesTrans(fs, g, State(), sb);
            ViaTrans(sb, fs.blocks, old(logged), g.blocks, mid, blocks, logged);
          }
          return;
        }
        return Ok(addr);
      }
      return Panic;
    }

    /** Between operations: nothing loose, every file fully mapped, every inode
        current on disk. */
    ghost predicate Valid()
      reads this
    {
      Sound({}) && Settled(State(), sb)
    }

    /** One iteration of readi: bmap, bread, and the bytes of one block. */
    method ReadChunk(ino: nat, p: nat, m: nat) returns (bytes: seq<Byte>)
      requires Sound({}) && ino < |inodes| && Mapped(State(), sb, ino)
      requires 0 < m && p + m <= inodes[ino].size && InBlock(p) + m <= BSIZE
      modifies `blocks, `inodes, `owner, `logged
      ensures State() == old(State()) && owner == old(owner) && logged == old(logged)
      ensures bytes == Content(old(State()), sb, ino)[p..p + m]
    {
      assert Shape(State(), sb);
      hide Allocated, MapOf, Content, BlockNo, InBlock, Mapped, Preserves, PointersOnly, LogsOnly;
      ContentChunk(State(), sb, ino, p, m);
      var a := Bmap(ino, BlockNo(p));
      bytes := blocks[a.value][InBlock(p)..InBlock(p) + m];
    }

    /** readi's loop. */
    method ReadLoop(ino: nat, off: nat, len: nat, copies: nat) returns (r: ReadResult)
      requires Sound({}) && ino < |inodes| && Mapped(State(), sb, ino) && off + len <= inodes[ino].size
      modifies `blocks, `inodes, `owner, `logged
      ensures State() == old(State()) && owner == old(owner) && logged == old(logged)
      ensures r.Fault? <==> copies < Spanned(off, len)
      ensures r.Copied? ==> r.bytes == Content(old(State()), sb, ino)[off..off + len]
    {
      hide Allocated, Content, InBlock, Chunk, AfterChunks, Mapped, Shape;
      AllocShape(State(), sb, owner, {});
      ghost var fs, content := State(), Content(State(), sb, ino);
      ChunksEnough(off, len, copies);
      var tot, bytes, c := 0, [], 0;
      FirstChunk(off, len);
      while tot < len
        invariant State() == fs && owner == old(owner) && logged == old(logged)
        invariant tot == AfterChunks(off, len, c) <= len && c <= copies
        invariant bytes == content[off..off + tot]
        decreases len - tot
      {
        var m := Chunk(off, len, tot);
        ChunkStep(off, len, c);
        var got := ReadChunk(ino, off + tot, m);
        if c == copies {
          return Fault;
        }
        Adjoin(content, off, off + tot, off + tot + m);
        bytes := bytes + got;
        tot, c := tot + m, c + 1;
      }
      ChunksDone(off, len, c, copies);
      return Copied(bytes);
    }

    /** Read up to `n` bytes at `off`. The first `copies` user copies succeed.
        Never allocates: every block below the size is mapped. */
    method Readi(ino: nat, off: nat, n: nat, copies: nat) returns (r: ReadResult)
      requires Valid() && ino < |inodes| && off < UINT_RANGE && n < UINT_RANGE
      modifies `blocks, `inodes, `owner, `logged
      ensures State() == old(State()) && owner == old(owner) && logged == old(logged)
      ensures off > inodes[ino].size || off + n >= UINT_RANGE ==> r == Copied([])
      ensures off <= inodes[ino].size && off + n < UINT_RANGE ==>
                var len := if off + n <= inodes[ino].size then n else inodes[ino].size - off;
                && Mapped(State(), sb, ino) && (r.Fault? <==> copies < Spanned(off, len))
                && (r.Copied? ==> r.bytes == Content(State(), sb, ino)[off..off + len])
    {
      assert Mapped(State(), sb, ino) && Shape(State(), sb);
      hide Sound, Settled, Content, AfterChunks, Mapped, Shape, Spanned;
      var size := inodes[ino].size;
      if off > size || off + n >= UINT_RANGE {
        return Copied([]);
      }
      r := ReadLoop(ino, off, if off + n > size then size - off else n, copies);
    }

    /** Copy the in-memory inode to its place on disk. */
    method Iupdate(ino: nat)
      requires ino < |inodes| && Storable(inodes[ino]) && InodeBlock(sb, ino) < |blocks|
      modifies `blocks, `logged
      ensures State() == PutInode(old(State()), sb, ino) && logged == old(logged) + {InodeBlock(sb, ino)}
    {
      hide PutWord, DinodeWord;
      var c, slot, ip := InodeBlock(sb, ino), ino % IPB, inodes[ino];
      var bp := blocks[c];
      for k := 0 to 16
        invariant bp == PutDinode(blocks[c], slot, ip, k)
      {
        bp := PutWord(bp, 16 * slot + k, DinodeWord(ip, k));
      }
      blocks := blocks[c := bp];
      logged := logged + {c};
    }

    /** One iteration of writei: bmap, then the copy and log_write if the user
        copy works. `touched` collects the data blocks. */
    method WriteChunk(ino: nat, off: nat, data: seq<Byte>, tot: nat, m: nat, copied: bool, ghost f: Fs)
      returns (ok: bool, ghost a: nat)
      requires Sound({}) && Writing(f, State(), sb, ino, off, data, tot) && ino < |inodes|
      requires 0 < m && tot + m <= |data| && InBlock(off + tot) + m <= BSIZE
      modifies `blocks, `inodes, `owner, `logged
      ensures !ok ==> Full()
      ensures ok ==> Sound({}) && Writing(f, State(), sb, ino, off, data, if copied then tot + m else tot)
      ensures ok ==> ino < |inodes| && |inodes[ino].addrs| == NDIRECT + 1
      ensures ok ==> LogsOnly(sb, old(logged), logged, {a, inodes[ino].addrs[NDIRECT]})
      ensures ok ==> Via(sb, old(blocks), old(logged), blocks, logged)
      ensures ok && old(inodes)[ino].addrs[NDIRECT] != 0 ==>
                inodes[ino].addrs[NDIRECT] == old(inodes)[ino].addrs[NDIRECT]
    {
      ghost var g := State();
      assert Shape(g, sb);
      a := 0;
      BlockInFile(off + tot);
      hide Allocated, Writing, Preserves, MapOf, BlockNo, InBlock, Splice, Super.IsBitmap, Via;
      var o := Bmap(ino, BlockNo(off + tot));
      if o.Panic? {
        return false, 0;
      }
      a := o.value;
      ghost var h, mid := State(), logged;
      WritingMapped(f, g, h, sb, ino, off, data, tot);
      if copied {
        var at := InBlock(off + tot);
        MappedAbove(h, sb, owner, ino, BlockNo(off + tot));
        ViaOne(sb, blocks, logged, o.value, Splice(blocks[o.value], at, data[tot..tot + m]));
        blocks := blocks[o.value := Splice(blocks[o.value], at, data[tot..tot + m])];
        logged := logged + {o.value};
        ViaTrans(sb, g.blocks, old(logged), h.blocks, mid, blocks, logged);
        WritingStored(f, h, State(), sb, owner, ino, off, data, tot, m);
      }
      return true, a;
    }

    /** Blocks one write may log: bitmap, inode, indirect and `touched`. */
    ghost predicate WriteLogs(before: set<nat>, ino: nat, touched: set<nat>)
      reads this
    {
      && ino < |inodes| && |inodes[ino].addrs| == NDIRECT + 1
      && LogsOnly(sb, before, logged, touched + {inodes[ino].addrs[NDIRECT], InodeBlock(sb, ino)})
    }

    /** writei's loop. */
    method WriteLoop(ino: nat, off: nat, data: seq<Byte>, copies: nat, ghost f: Fs)
      returns (ok: bool, tot: nat, ghost touched: set<nat>)
      requires Sound({}) && ino < |inodes| && |inodes[ino].addrs| == NDIRECT + 1
      requires Writing(f, State(), sb, ino, off, data, 0)
      modifies `blocks, `inodes, `owner, `logged
      ensures !ok ==> Full()
      ensures ok ==> Sound({}) && Writing(f, State(), sb, ino, off, data, tot) && tot == AfterChunks(off, |data|, copies)
      ensures ok ==> ino < |inodes| && |inodes[ino].addrs| == NDIRECT + 1
      ensures ok ==> LogsOnly(sb, old(logged), logged, touched + {inodes[ino].addrs[NDIRECT]})
      ensures ok ==> Via(sb, old(blocks), old(logged), blocks, logged)
      ensures ok ==> FewTouched(off, |data|, |touched|)
    {
      hide Sound, Full, Chunk, AfterChunks, Writing, InBlock, LogsOnly, FewTouched, Via;
      touched := {};
      ViaNone(sb, blocks, logged);
      FirstChunk(off, |data|);
      NothingLogged(sb, logged, {inodes[ino].addrs[NDIRECT]});
      NoneTouched(off, |data|);
      tot := 0;
      var c := 0;
      while tot < |data|
        invariant ino < |inodes| && |inodes[ino].addrs| == NDIRECT + 1
        invariant Sound({}) && Writing(f, State(), sb, ino, off, data, tot)
        invariant tot == AfterChunks(off, |data|, c) <= |data| && c <= copies
        invariant LogsOnly(sb, old(logged), logged, touched + {inodes[ino].addrs[NDIRECT]})
        invariant FewTouched(off, |data|, |touched|) && |touched| <= c
        invariant Via(sb, old(blocks), old(logged), blocks, logged)
        decreases |data| - tot
      {
        var m := Chunk(off, |data|, tot);
        ChunkStep(off, |data|, c);
        ghost var was, mid, p := blocks, logged, inodes[ino].addrs[NDIRECT];
        ghost var a;
        ok, a := WriteChunk(ino, off, data, tot, m, c < copies, f);
        if !ok {
          return;
        }
        ViaTrans(sb, old(blocks), old(logged), was, mid, blocks, logged);
        LogsGrow(sb, old(logged), mid, logged, touched, a, p, inodes[ino].addrs[NDIRECT]);
        MoreTouched(off, |data|, c, touched, a);
        touched := touched + {a};
        if c == copies {
          return;
        }
        tot, c := tot + m, c + 1;
      }
      ChunksDone(off, |data|, c, copies);
      return true, tot, touched;
    }

    /** Store `data` at `off`; the first `copies` user copies succeed. */
    method Writei(ino: nat, off: nat, data: seq<Byte>, copies: nat)
      returns (r: WriteResult, ghost touched: set<nat>)
      requires Valid() && ino < |inodes| && off < UINT_RANGE && |data| < UINT_RANGE
      modifies `blocks, `inodes, `owner, `logged
      ensures r.Rejected? <==> off > old(inodes)[ino].size || off + |data| > MAXFILE * BSIZE
      ensures r.Rejected? ==> State() == old(State()) && Valid()
      ensures r.WritePanic? ==> Full()
      ensures r.Wrote? ==> r.tot == Moved(off, |data|, copies) <= |data| && Valid()
      ensures r.Wrote? ==> Stored(old(State()), State(), sb, ino, off, data[..r.tot])
      ensures r.Wrote? ==> WriteLogs(old(logged), ino, touched) && FewTouched(off, |data|, |touched|)
      ensures r.Wrote? ==> Via(sb, old(blocks), old(logged), blocks, logged)
    {
      var size := inodes[ino].size;
      if off > size || off + |data| >= UINT_RANGE {
        return Rejected, {};
      }
      if off + |data| > MAXFILE * BSIZE {
        return Rejected, {};
      }
      ghost var f := State();
      assert Mapped(f, sb, ino) && Shape(f, sb) && OnDisk(f, sb, ino);
      hide Allocated, Mapped, Settled, AfterChunks, Writing, LogsOnly, OnDisk, Content, Stored, FewTouched, PutInode, Via;
      WritingStarts(f, sb, ino, off, data);
      var ok, tot;
      ok, tot, touched := WriteLoop(ino, off, data, copies, f);
      ChunksMove(off, |data|, copies);
      if !ok {
        return WritePanic, {};
      }
      ghost var g := State();
      if off + tot > size {
        inodes := inodes[ino := inodes[ino].(size := off + tot)];
      }
      ghost var h := State();
      WriteSized(f, g, h, sb, owner, ino, off, data, tot);
      ghost var mid := logged;
      Iupdate(ino);
      ViaInode(h, sb, ino, mid);
      ViaTrans(sb, f.blocks, old(logged), h.blocks, mid, blocks, logged);
      WriteSettles(f, g, h, State(), sb, owner, ino, off, data, tot);
      LogsInode(sb, old(logged), mid, touched, inodes[ino].addrs[NDIRECT], InodeBlock(sb, ino));
      return Wrote(tot), touched;
    }

    /** itrunc's first loop: free every direct block. */
    method TruncDirect(ino: nat, ghost f: Fs)
      requires Sound({}) && Truncating(f, State(), sb, ino)
      modifies `blocks, `inodes, `owner, `logged
      ensures Sound({}) && Truncating(f, State(), sb, ino)
      ensures forall k :: 0 <= k < NDIRECT ==> inodes[ino].addrs[k] == 0
      ensures Released(old(owner), owner, ino) && Via(sb, old(blocks), old(logged), blocks, logged)
      ensures LogsOnly(sb, old(logged), logged, {})
    {
      hide Allocated, Truncating, InUse, Super.BitmapBlock, MarkFree, Released, Super.Sane, Via, LogsOnly;
      ViaNone(sb, blocks, logged);
      LogsNone(sb, logged);
      AllocShape(State(), sb, owner, {});
      TruncatingShape(f, State(), sb, ino);
      ReleasedNone(owner, ino);
      for k := 0 to NDIRECT
        invariant ino < |inodes| && |inodes[ino].addrs| == NDIRECT + 1
        invariant Sound({}) && Truncating(f, State(), sb, ino)
        invariant forall j :: 0 <= j < k ==> inodes[ino].addrs[j] == 0
        invariant Released(old(owner), owner, ino) && Via(sb, old(blocks), old(logged), blocks, logged)
        invariant LogsOnly(sb, old(logged), logged, {})
      {
        var b := inodes[ino].addrs[k];
        if b != 0 {
          ghost var fs, mid := State(), logged;
          DirectInUse(fs, sb, owner, ino, k);
          var panic := Bfree(b);
          assert !panic;
          ViaTrans(sb, old(blocks), old(logged), fs.blocks, mid, blocks, logged);
          LogsTrans(sb, old(logged), mid, logged);
          ghost var m := State();
          inodes := inodes[ino := inodes[ino].(addrs := inodes[ino].addrs[k := 0])];
          DirectReleased(f, fs, m, State(), sb, owner, ino, k, b);
          ReleasedStep(old(owner), owner, ino, b);
          owner := owner - {b};
        }
      }
    }

    /** itrunc's second part: free what the indirect block names, then it. */
    method TruncIndirect(ino: nat, ghost f: Fs)
      requires Sound({}) && Truncating(f, State(), sb, ino) && inodes[ino].addrs[NDIRECT] != 0
      modifies `blocks, `inodes, `owner, `logged
      ensures Sound({}) && Truncating(f, State(), sb, ino)
      ensures inodes == old(inodes)[ino := old(inodes)[ino].(addrs := old(inodes)[ino].addrs[NDIRECT := 0])]
      ensures Released(old(owner), owner, ino) && Via(sb, old(blocks), old(logged), blocks, logged)
      ensures LogsOnly(sb, old(logged), logged, {})
    {
      hide LogsOnly, Allocated, Truncating, InUse, Super.BitmapBlock, MarkFree, Word, Remaining, DistinctEntries, BlocksUnder, Super.Sane, Released, Via;
      ViaNone(sb, blocks, logged);
      LogsNone(sb, logged);
      AllocShape(State(), sb, owner, {});
      TruncatingShape(f, State(), sb, ino);
      var p := inodes[ino].addrs[NDIRECT];
      var a := blocks[p];
      DetachRemaining(State(), sb, owner, ino);
      IndirectDistinct(State(), sb, owner, ino);
      ghost var ow := owner - BlocksUnder(owner, ino);
      ReleasedUnder(owner, ino);
      for j := 0 to NINDIRECT
        invariant inodes == old(inodes) && owner == old(owner) && Truncating(f, State(), sb, ino)
        invariant Shape(State(), sb)
        invariant Allocated(SetAddr(State(), ino, NDIRECT, 0), sb, ow, Remaining(a, p, j))
        invariant Via(sb, old(blocks), old(logged), blocks, logged) && LogsOnly(sb, old(logged), logged, {})
      {
        var b := Word(a, j);
        if b != 0 {
          RemainingStep(a, p, j);
          ghost var was, mid := blocks, logged;
          FreeLoose(ino, ow, Remaining(a, p, j), b, f);
          ViaTrans(sb, old(blocks), old(logged), was, mid, blocks, logged);
          LogsTrans(sb, old(logged), mid, logged);
        } else {
          RemainingSkip(a, p, j);
        }
      }
      RemainingLast(a, p);
      ghost var last, most := blocks, logged;
      FreeLoose(ino, ow, {p}, p, f);
      ViaTrans(sb, old(blocks), old(logged), last, most, blocks, logged);
      LogsTrans(sb, old(logged), most, logged);
      assert {p} - {p} == {};
      ghost var g := State();
      inodes := inodes[ino := inodes[ino].(addrs := inodes[ino].addrs[NDIRECT := 0])];
      assert State() == SetAddr(g, ino, NDIRECT, 0);
      TruncatingClear(f, g, State(), sb, ino);
      owner := ow;
    }

    /** bfree of a block that no pointer names any more: it cannot panic. */
    method FreeLoose(ino: nat, ghost ow: map<nat, Slot>, ghost loose: set<nat>, b: nat, ghost f: Fs)
      requires Shape(State(), sb) && Truncating(f, State(), sb, ino) && ino < |inodes|
      requires Allocated(SetAddr(State(), ino, NDIRECT, 0), sb, ow, loose) && b in loose
      modifies `blocks, `logged
      ensures Shape(State(), sb) && Truncating(f, State(), sb, ino)
      ensures Allocated(SetAddr(State(), ino, NDIRECT, 0), sb, ow, loose - {b})
      ensures Via(sb, old(blocks), old(logged), blocks, logged) && LogsOnly(sb, old(logged), logged, {})
    {
      hide Allocated, InUse, Super.BitmapBlock, MarkFree, Via, LogsOnly;
      ghost var fs := State();
      LooseInUse(fs, sb, ow, ino, loose, b);
      var panic := Bfree(b);
      assert !panic;
      EntryReleased(f, fs, State(), sb, ow, ino, loose, b);
    }

    /** Discard a file's contents. */
    method Itrunc(ino: nat)
      requires Valid() && ino < |inodes|
      modifies `blocks, `inodes, `owner, `logged
      ensures Valid() && OtherFiles(old(State()), State(), sb, ino) && ino < |inodes|
      ensures Content(State(), sb, ino) == []
      ensures inodes[ino] == Inode(old(inodes)[ino].head, 0, seq(NDIRECT + 1, _ => 0))
      ensures Released(old(owner), owner, ino) && forall b :: b in owner ==> owner[b].ino != ino
      ensures Via(sb, old(blocks), old(logged), blocks, logged)
      ensures old(logged) == {} && sb.size <= BPB ==> |logged| <= 2
    {
      hide Allocated, Truncating, Settled, Content, OnDisk, OtherFiles, PutInode, Released, Super.Sane, Via, LogsOnly;
      ghost var f, fow := State(), owner;
      SettledAt(f, sb, ino);
      TruncatingSelf(f, sb, ino);
      TruncDirect(ino, f);
      TruncatingShape(f, State(), sb, ino);
      if inodes[ino].addrs[NDIRECT] != 0 {
        ghost var mid, was, few := owner, blocks, logged;
        TruncIndirect(ino, f);
        ReleasedTrans(fow, mid, owner, ino);
        ViaTrans(sb, f.blocks, old(logged), was, few, blocks, logged);
        LogsTrans(sb, old(logged), few, logged);
      }
      ghost var g := State();
      TruncatingShape(f, g, sb, ino);
      inodes := inodes[ino := inodes[ino].(size := 0)];
      ghost var h := State();
      TruncStorable(f, g, h, sb, owner, ino);
      ghost var most := logged;
      Iupdate(ino);
      ViaInode(h, sb, ino, most);
      ViaTrans(sb, f.blocks, old(logged), h.blocks, most, blocks, logged);
      if old(logged) == {} && sb.size <= BPB { TwoBlocks(sb, most, InodeBlock(sb, ino)); }
      TruncateEnds(f, g, h, State(), sb, fow, owner, ino);
      assert inodes[ino].addrs == seq(NDIRECT + 1, _ => 0);
      OwnsNone(State(), sb, owner, ino);
    }

    /** One begin_op/end_op bracket of filewrite. When the bitmap is a single
        block, it logs at most seven distinct blocks. */
    method WriteOp(ino: nat, off: nat, data: seq<Byte>, copies: nat) returns (r: WriteResult)
      requires Valid() && ino < |inodes| && off < UINT_RANGE && |data| <= CHUNKMAX
      modifies `blocks, `inodes, `owner, `logged
      ensures r.Rejected? <==> off > old(inodes)[ino].size || off + |data| > MAXFILE * BSIZE
      ensures r.Rejected? ==> State() == old(State()) && Valid()
      ensures r.WritePanic? ==> Full()
      ensures r.Wrote? ==> r.tot == Moved(off, |data|, copies) <= |data| && Valid()
      ensures r.Wrote? ==> Stored(old(State()), State(), sb, ino, off, data[..r.tot])
      ensures r.Wrote? ==> Via(sb, old(blocks), {}, blocks, logged)
      ensures r.Wrote? && sb.size <= BPB ==> |logged| <= 7
    {
      logged := {};
      hide Sound, Settled, Full, AfterChunks, Moved, LogsOnly, Stored, FewTouched, Via;
      ghost var touched;
      r, touched := Writei(ino, off, data, copies);
      if r.Wrote? && sb.size <= BPB {
        FourChunks(off, |data|);
        SevenBlocks(sb, logged, touched, inodes[ino].addrs[NDIRECT], InodeBlock(sb, ino), off, |data|);
      }
    }

    /** filewrite on an inode: chunk by chunk, each its own transaction. The
        offset ends past the bytes stored; -1 unless that is all of them. */
    method FileWrite(ino: nat, off: nat, data: seq<Byte>, copies: nat -> nat)
      returns (panic: bool, ret: int, newOff: nat, ghost marks: seq<Mark>)
      requires Valid() && ino < |inodes| && off < UINT_RANGE
      modifies `blocks, `inodes, `owner, `logged
      ensures !panic ==> Valid() && ret == (if newOff == off + |data| then |data| else -1)
      ensures !panic ==> off <= newOff <= off + |data|
      ensures panic ==> Full()
      ensures History(sb, old(State()), ino, off, data, marks)
      ensures !panic ==> marks[|marks| - 1].fs == State() && marks[|marks| - 1].upto == newOff - off
      ensures !panic && off <= old(inodes)[ino].size && (forall c :: copies(c) >= 4) ==>
                newOff - off == if off + |data| <= MAXFILE * BSIZE then |data| else (MAXFILE * BSIZE - off) / CHUNKMAX * CHUNKMAX
      ensures !panic && NothingTried(old(inodes)[ino].size, off, |data|) ==> newOff == off && State() == old(State())
      ensures !panic && !NothingTried(old(inodes)[ino].size, off, |data|) ==>
                Stored(old(State()), State(), sb, ino, off, data[..newOff - off])
    {
      hide Allocated, Settled, Full, AfterChunks, Moved, Stored, History, Via;
      ghost var f := State();
      newOff := off;
      var i, c := 0, 0;
      marks := [Mark(f, owner, 0, {})];
      HistoryStarts(sb, f, owner, ino, off, data);
      SizeBound(f, sb, ino);
      while i < |data|
        invariant |marks| == c + 1 && History(sb, f, ino, off, data, marks)
        invariant marks[c].fs == State() && marks[c].upto == i && (i < |data| ==> i == c * CHUNKMAX)
        invariant Valid() && ino < |inodes| && 0 <= i <= |data| && newOff == off + i < UINT_RANGE
        invariant i == 0 ==> State() == f
        invariant i > 0 ==> newOff <= inodes[ino].size
        invariant off <= f.inodes[ino].size ==> newOff <= MAXFILE * BSIZE
        invariant i > 0 ==> Stored(f, State(), sb, ino, off, data[..i]) && !NothingTried(f.inodes[ino].size, off, |data|)
      {
        var n1 := if |data| - i > CHUNKMAX then CHUNKMAX else |data| - i;
        ghost var g := State();
        var r := WriteOp(ino, newOff, data[i..i + n1], copies(c));
        if r.WritePanic? {
          return true, -1, newOff, marks;
        }
        if r.Rejected? {
          if off <= f.inodes[ino].size { LastChunk(off, |data|, c, n1); }
          return false, -1, newOff, marks;
        }
        StoredBounds(g, State(), sb, ino, newOff, data[i..i + n1][..r.tot]);
        if i > 0 {
          StoredTwice(f, g, State(), sb, ino, off, data, i, r.tot, n1);
        } else {
          assert data[..r.tot] == data[i..i + n1][..r.tot];
        }
        HistoryGrows(sb, f, ino, off, data, marks, Mark(State(), owner, i + r.tot, logged));
        marks := marks + [Mark(State(), owner, i + r.tot, logged)];
        FourChunks(newOff, n1);
        ChunksMove(newOff, n1, copies(c));
        if copies(c) >= 4 {
          ChunksDone(newOff, n1, 4, copies(c));
        }
        newOff := newOff + r.tot;
        if r.tot != n1 {
          return false, -1, newOff, marks;
        }
        i, c := i + r.tot, c + 1;
      }
      return false, |data|, newOff, marks;
    }

    lemma SameBitmapBlock(row: nat, bi: nat)
      requires bi < BPB
      ensures sb.BitmapBlock(BPB * row + bi) == sb.bmapstart + row && (BPB * row + bi) % BPB == bi
    {}
  }
}
