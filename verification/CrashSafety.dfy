/** The inode layer on top of the log: what a crash in the middle of a transaction,
    and any number of crashes in the recoveries after it, can do to files
    (kernel/log.c, kernel/fs.c, kernel/file.c). */
module CrashSafety {
  import opened Params
  import opened Blocks
  import opened Inodes
  import opened Dinodes
  import opened FileWrites
  import opened InodeLayer
  import W = WriteAheadLog

  /** The file system a reboot finds on disk: inodes as ilock reads them. */
  function Mount(d: W.Disk, sb: Super, n: nat): (fs: Fs)
    requires forall i :: 0 <= i < n ==> InodeBlock(sb, i) < |d|
  {
    Fs(d, seq(n, i requires 0 <= i < n => GetDinode(d[InodeBlock(sb, i)], i % IPB)))
  }

  /** mkfs puts the log before the inode blocks. */
  predicate Laid(sb: Super, g: W.Region) { g.start + g.size <= sb.inodestart }

  /** Nobody can tell the files of `f` and `m` apart. */
  ghost predicate SameFiles(f: Fs, m: Fs, sb: Super) {
    && Settled(f, sb) && Settled(m, sb) && m.inodes == f.inodes
    && forall i :: 0 <= i < |f.inodes| ==> Content(m, sb, i) == Content(f, sb, i)
  }

  lemma SettledBlocks(f: Fs, sb: Super, i: nat)
    requires Settled(f, sb) && i < |f.inodes|
    ensures Mapped(f, sb, i) && OnDisk(f, sb, i) && sb.inodestart <= InodeBlock(sb, i) < |f.blocks|
  {
    hide Mapped;
  }

  /** `m` is `f` but for blocks of the log region. */
  ghost predicate LogApart(f: Fs, m: Fs, g: W.Region) {
    && |m.blocks| == |f.blocks| && m.inodes == f.inodes
    && forall b: nat :: W.Home(f.blocks, g, b) ==> m.blocks[b] == f.blocks[b]
  }

  lemma LogApartLow(f: Fs, m: Fs, sb: Super, g: W.Region)
    requires LogApart(f, m, g) && Shape(f, sb) && Laid(sb, g)
    ensures LowEdit(f, m, sb)
  {
    forall c | sb.bmapstart <= c < sb.size ensures m.blocks[c] == f.blocks[c] {
      assert W.Home(f.blocks, g, c);
    }
  }

  lemma LogApartFile(f: Fs, m: Fs, sb: Super, ow: map<nat, Slot>, g: W.Region, i: nat)
    requires LogApart(f, m, g) && Laid(sb, g) && LowEdit(f, m, sb)
    requires Allocated(f, sb, ow, {}) && Settled(f, sb) && i < |f.inodes|
    ensures Mapped(f, sb, i) && Mapped(m, sb, i) && Content(m, sb, i) == Content(f, sb, i) && OnDisk(m, sb, i)
  {
    hide Content, Allocated, Mapped, GetDinode;
    SettledBlocks(f, sb, i);
    assert W.Home(f.blocks, g, InodeBlock(sb, i));
    LowKept(f, m, sb, ow, i);
    KeptContent(f, m, sb, i);
  }

  lemma LowKept(f: Fs, m: Fs, sb: Super, ow: map<nat, Slot>, i: nat)
    requires LowEdit(f, m, sb) && Allocated(f, sb, ow, {}) && i < |f.inodes|
    ensures FileKept(f, m, sb, i)
  {
    hide Allocated, Value;
    forall bn | 0 <= bn < MAXFILE && 0 < MapOf(f, sb, i, bn) < sb.size
      ensures MapOf(m, sb, i, bn) == MapOf(f, sb, i, bn)
      ensures m.blocks[MapOf(f, sb, i, bn)] == f.blocks[MapOf(f, sb, i, bn)]
    {
      LowValue(f, m, sb, ow, DataSlot(i, bn));
      NamedAbove(f, sb, ow, DataSlot(i, bn));
    }
  }

  /** Blocks of the log region hold no part of any file. */
  lemma LogApartSame(f: Fs, m: Fs, sb: Super, ow: map<nat, Slot>, g: W.Region)
    requires LogApart(f, m, g) && Laid(sb, g) && Allocated(f, sb, ow, {}) && Settled(f, sb)
    ensures Allocated(m, sb, ow, {}) && SameFiles(f, m, sb)
  {
    hide Allocated, Mapped, OnDisk, Content, Laid;
    AllocShape(f, sb, ow, {});
    LogApartLow(f, m, sb, g);
    LowMove(f, m, sb, ow);
    forall i | 0 <= i < |f.inodes|
      ensures Mapped(f, sb, i) && Mapped(m, sb, i) && Content(m, sb, i) == Content(f, sb, i) && OnDisk(m, sb, i)
    {
      LogApartFile(f, m, sb, ow, g, i);
    }
  }

  /** Transaction `t` takes the blocks of `f` to those of `h`. */
  ghost predicate Carries(t: W.Txn, f: Fs, h: Fs) {
    && |t.vals| == |t.bs| && |h.blocks| == |f.blocks|
    && (forall i :: 0 <= i < |t.bs| ==> t.bs[i] < |h.blocks| && t.vals[i] == h.blocks[t.bs[i]])
    && (forall b :: 0 <= b < |f.blocks| && h.blocks[b] != f.blocks[b] ==> b in t.bs)
  }

  /** Disk `d`, with a clean log, holds the blocks of `f`. */
  ghost predicate Shows(d: W.Disk, f: Fs, g: W.Region) {
    W.Clean(d, g) && |d| == |f.blocks| && forall b: nat :: W.Home(d, g, b) ==> d[b] == f.blocks[b]
  }

  lemma CarriesAt(t: W.Txn, d: W.Disk, f: Fs, h: Fs, b: nat)
    requires Carries(t, f, h) && |d| == |f.blocks| && b < |d| && d[b] == f.blocks[b]
    ensures W.Updated(d, t.bs, t.vals, b) == h.blocks[b]
  {
    assert W.Find(t.bs, b) == |t.bs| ==> b !in t.bs;
  }

  /** The disk after the crash and the recoveries shows `z`'s home blocks. */
  lemma MountShows(z: Fs, d: W.Disk, sb: Super, g: W.Region)
    requires Settled(z, sb) && Laid(sb, g) && |d| == |z.blocks|
    requires forall b: nat :: W.Home(d, g, b) ==> d[b] == z.blocks[b]
    ensures (forall i :: 0 <= i < |z.inodes| ==> InodeBlock(sb, i) < |d|) && LogApart(z, Mount(d, sb, |z.inodes|), g)
  {
    hide Mapped, GetDinode;
    forall i | 0 <= i < |z.inodes|
      ensures InodeBlock(sb, i) < |d| && GetDinode(d[InodeBlock(sb, i)], i % IPB) == z.inodes[i]
    {
      SettledBlocks(z, sb, i);
      assert W.Home(d, g, InodeBlock(sb, i));
    }
    assert Mount(d, sb, |z.inodes|).inodes == z.inodes;
  }

  /** After a crash at write k of the commit of `t` to disk `d`, and recoveries cut
      short at `js`: the bitmap is exact, the log is clean, and all files are as
      before the transaction, or all as after it, the latter iff its header was
      written. */
  ghost predicate Survives(d: W.Disk, f: Fs, h: Fs, sb: Super, g: W.Region, t: W.Txn, k: nat, js: seq<nat>)
    requires W.Clean(d, g) && t.Legal(|d|, g) && k <= t.Length()
  {
    var e := W.Crashed(d, g, t, k, js);
    && (forall i :: 0 <= i < |f.inodes| ==> InodeBlock(sb, i) < |e|)
    && var m := Mount(e, sb, |f.inodes|);
    && W.Clean(e, g) && (exists ow :: Allocated(m, sb, ow, {}))
    && SameFiles(if k <= |t.bs| then f else h, m, sb)
  }

  /** Any two consistent file systems, and a transaction from one to the other. */
  lemma CommitIsAtomic(d: W.Disk, f: Fs, h: Fs, sb: Super, ow: map<nat, Slot>, ow': map<nat, Slot>,
                       g: W.Region, t: W.Txn, k: nat, js: seq<nat>)
    requires Allocated(f, sb, ow, {}) && Settled(f, sb) && Allocated(h, sb, ow', {}) && Settled(h, sb)
    requires |h.inodes| == |f.inodes| && Laid(sb, g) && Carries(t, f, h)
    requires Shows(d, f, g) && t.Legal(|d|, g) && k <= t.Length()
    ensures Survives(d, f, h, sb, g, t, k, js)
  {
    hide Allocated, Settled, Carries, Laid, SameFiles, W.Crashed, W.Updated, W.Clean, W.Txn.Legal, W.Txn.Length;
    var e := W.Crashed(d, g, t, k, js);
    var z := if k <= |t.bs| then f else h;
    CarriesSize(t, f, h);
    InodesHome(f, sb, g);
    W.CrashAtomicity(d, g, t, k, js, sb.inodestart);
    forall b: nat | W.Home(e, g, b) ensures e[b] == z.blocks[b] {
      assert W.Home(d, g, b);
      W.CrashAtomicity(d, g, t, k, js, b);
      CarriesAt(t, d, f, h, b);
    }
    MountShows(z, e, sb, g);
    LogApartSame(z, Mount(e, sb, |z.inodes|), sb, if k <= |t.bs| then ow else ow', g);
  }

  /** A commit that is not interrupted leaves a disk for the next one. */
  lemma CommitShows(d: W.Disk, f: Fs, h: Fs, sb: Super, g: W.Region, t: W.Txn)
    requires Settled(f, sb) && Laid(sb, g) && Carries(t, f, h) && Shows(d, f, g) && t.Legal(|d|, g)
    ensures Shows(W.CommitState(d, g, t, t.Length()), h, g)
  {
    hide Settled, Carries, Laid, W.CommitState, W.Updated, W.Clean, W.Txn.Length;
    CarriesSize(t, f, h);
    InodesHome(f, sb, g);
    W.CommitWhole(d, g, t, sb.inodestart);
    var e := W.CommitState(d, g, t, t.Length());
    forall b: nat | W.Home(e, g, b) ensures e[b] == h.blocks[b] {
      assert W.Home(d, g, b);
      W.CommitWhole(d, g, t, b);
      CarriesAt(t, d, f, h, b);
    }
  }

  lemma InodesHome(f: Fs, sb: Super, g: W.Region)
    requires Settled(f, sb) && Laid(sb, g)
    ensures W.Home(f.blocks, g, sb.inodestart)
  {
    hide Mapped, OnDisk;
  }

  lemma CarriesSize(t: W.Txn, f: Fs, h: Fs)
    requires Carries(t, f, h)
    ensures |h.blocks| == |f.blocks| && |t.vals| == |t.bs|
  {}

  /** The transactions that commit makes of the blocks in `logged`. */
  ghost predicate Commits(t: W.Txn, f: Fs, h: Fs, logged: set<nat>, g: W.Region) {
    && t.Legal(|f.blocks|, g) && (forall b :: b in logged <==> b in t.bs)
    && forall i :: 0 <= i < |t.bs| ==> t.bs[i] < |h.blocks| && t.vals[i] == h.blocks[t.bs[i]]
  }

  /** A set of blocks in some order. */
  lemma {:induction false} Listing(s: set<nat>) returns (bs: seq<nat>)
    ensures |bs| == |s| && W.Distinct(bs) && forall b :: b in s <==> b in bs
  {
    bs := [];
    if s != {} {
      var b :| b in s;
      var rest := Listing(s - {b});
      bs := rest + [b];
    }
  }

  /** There is such a transaction exactly when the log has a slot for every block. */
  lemma CommitsIff(f: Fs, h: Fs, logged: set<nat>, sb: Super, g: W.Region)
    requires Shape(f, sb) && Shape(h, sb) && Laid(sb, g) && g.Fits(|f.blocks|) && Via(sb, f.blocks, {}, h.blocks, logged)
    ensures (exists t :: Commits(t, f, h, logged, g)) <==> |logged| <= g.size - 1
  {
    hide Via;
    if |logged| <= g.size - 1 {
      var t := SomeCommit(f, h, logged, sb, g);
    }
    if t :| Commits(t, f, h, logged, g) {
      ListedOnce(t.bs, logged);
    }
  }

  lemma {:induction false} ListedOnce(bs: seq<nat>, s: set<nat>)
    requires W.Distinct(bs) && forall b :: b in s <==> b in bs
    ensures |bs| == |s|
  {
    if bs == [] {
      assert s == {};
    } else {
      var n := |bs| - 1;
      ListedOnce(bs[..n], s - {bs[n]});
    }
  }

  lemma SomeCommit(f: Fs, h: Fs, logged: set<nat>, sb: Super, g: W.Region) returns (t: W.Txn)
    requires Shape(f, sb) && Shape(h, sb) && Laid(sb, g) && g.Fits(|f.blocks|) && Via(sb, f.blocks, {}, h.blocks, logged)
    requires |logged| <= g.size - 1
    ensures Commits(t, f, h, logged, g)
  {
    var bs := Listing(logged);
    forall i | 0 <= i < |bs| ensures bs[i] < |h.blocks| && !g.Contains(bs[i]) { assert bs[i] in logged; }
    hide W.PutHead, ZeroBlock;
    t := W.Txn(bs, seq(|bs|, i requires 0 <= i < |bs| => h.blocks[bs[i]]), W.PutHead(ZeroBlock(), bs), W.PutHead(ZeroBlock(), []));
  }

  /** mkfs leaves an empty log. */
  lemma BlankClean(blocks: seq<Block>, sb: Super, g: W.Region)
    requires Blank(blocks, sb, sb.nmeta) && Laid(sb, g) && 1 <= g.size <= LOGSIZE + 1
    ensures W.Clean(blocks, g)
  {
    hide BitSet;
    assert W.HeadCount(ZeroBlock()) == 0;
  }

  /** Whatever of those commits, to whatever disk that holds `f`, a crash anywhere in
      it is survived. */
  ghost predicate Atomic(f: Fs, h: Fs, sb: Super, g: W.Region, logged: set<nat>) {
    forall d: W.Disk, t: W.Txn, k: nat, js: seq<nat> ::
      Shows(d, f, g) && Commits(t, f, h, logged, g) && k <= t.Length() ==> Survives(d, f, h, sb, g, t, k, js)
  }

  lemma CommitsCarries(t: W.Txn, f: Fs, h: Fs, logged: set<nat>, sb: Super, g: W.Region)
    requires Via(sb, f.blocks, {}, h.blocks, logged) && Commits(t, f, h, logged, g)
    ensures Carries(t, f, h) && t.Legal(|f.blocks|, g)
  {}

  lemma LoggedIsAtomic(f: Fs, h: Fs, sb: Super, ow: map<nat, Slot>, ow': map<nat, Slot>, g: W.Region, logged: set<nat>)
    requires Allocated(f, sb, ow, {}) && Settled(f, sb) && Allocated(h, sb, ow', {}) && Settled(h, sb)
    requires |h.inodes| == |f.inodes| && Laid(sb, g) && Via(sb, f.blocks, {}, h.blocks, logged)
    ensures Atomic(f, h, sb, g, logged)
  {
    hide Allocated, Settled, Laid, W.Clean, Via, Carries, Survives, W.Txn.Length;
    forall d: W.Disk, t: W.Txn, k: nat, js: seq<nat> | Shows(d, f, g) && Commits(t, f, h, logged, g) && k <= t.Length()
      ensures Survives(d, f, h, sb, g, t, k, js)
    {
      CommitsCarries(t, f, h, logged, sb, g);
      CommitIsAtomic(d, f, h, sb, ow, ow', g, t, k, js);
    }
  }

  /** One transaction of filewrite: if the machine crashes while it
      commits, the file has its old bytes or all of the new ones, and every other
      file is untouched. */
  method WriteTransaction(fs: FileSystem, g: W.Region, ino: nat, off: nat, data: seq<Byte>, copies: nat) returns (r: WriteResult)
    requires fs.Valid() && ino < |fs.inodes| && off < UINT_RANGE && |data| <= CHUNKMAX
    requires Laid(fs.sb, g)
    modifies fs
    ensures r.Wrote? ==> fs.Valid() && r.tot == Moved(off, |data|, copies) <= |data|
    ensures r.Wrote? ==> Stored(old(fs.State()), fs.State(), fs.sb, ino, off, data[..r.tot])
    ensures r.Wrote? ==> Atomic(old(fs.State()), fs.State(), fs.sb, g, fs.logged) && (fs.sb.size <= BPB ==> |fs.logged| <= 7)
  {
    hide Allocated, Settled, Laid, W.Clean, Via, Stored, Moved, Atomic;
    ghost var f, ow := fs.State(), fs.owner;
    r := fs.WriteOp(ino, off, data, copies);
    if r.Wrote? {
      StoredCount(f, fs.State(), fs.sb, ino, off, data[..r.tot]);
      LoggedIsAtomic(f, fs.State(), fs.sb, ow, fs.owner, g, fs.logged);
    }
  }

  /** The same for a transaction that discards a file's contents. */
  method TruncTransaction(fs: FileSystem, g: W.Region, ino: nat)
    requires fs.Valid() && ino < |fs.inodes| && Laid(fs.sb, g) && fs.logged == {}
    modifies fs
    ensures fs.Valid() && OtherFiles(old(fs.State()), fs.State(), fs.sb, ino) && ino < |fs.inodes|
    ensures Content(fs.State(), fs.sb, ino) == []
    ensures Atomic(old(fs.State()), fs.State(), fs.sb, g, fs.logged) && (fs.sb.size <= BPB ==> |fs.logged| <= 2)
  {
    hide Allocated, Settled, Laid, W.Clean, Via, Released, Atomic, Content;
    ghost var f, ow := fs.State(), fs.owner;
    fs.Itrunc(ino);
    LoggedIsAtomic(f, fs.State(), fs.sb, ow, fs.owner, g, fs.logged);
  }

  lemma StoredCount(f: Fs, h: Fs, sb: Super, ino: nat, off: nat, bytes: seq<Byte>)
    requires Stored(f, h, sb, ino, off, bytes)
    ensures |h.inodes| == |f.inodes|
  {
    hide Content, Mapped;
  }

  // ----- a whole filewrite -----

  /** What file `q` holds after the first `upto` bytes of the write. */
  ghost function Expected(f: Fs, sb: Super, ino: nat, off: nat, data: seq<Byte>, upto: nat, q: nat): (c: seq<Byte>)
    requires Settled(f, sb) && q < |f.inodes| && upto <= |data|
  {
    var c := Content(f, sb, q);
    if q == ino && 0 < upto && off <= |c| then Written(c, off, data[..upto]) else c
  }

  lemma HistoryAt(sb: Super, f: Fs, ino: nat, off: nat, data: seq<Byte>, marks: seq<Mark>, i: nat)
    requires History(sb, f, ino, off, data, marks) && i < |marks|
    ensures MarkOk(sb, f, ino, off, data, marks, i)
    ensures |marks[i].fs.inodes| == |f.inodes|
  {
    hide Allocated, Settled, Via, Content;
    assert MarkOk(sb, f, ino, off, data, marks, i);
    if i > 0 { StoredCount(f, marks[i].fs, sb, ino, off, data[..marks[i].upto]); }
  }

  lemma WrittenNone(c: seq<Byte>, off: nat)
    requires off <= |c|
    ensures Written(c, off, []) == c
  {}

  /** At every mark the file holds what was written so far, the others what they held. */
  lemma MarkContent(sb: Super, f: Fs, ino: nat, off: nat, data: seq<Byte>, marks: seq<Mark>, i: nat, q: nat)
    requires History(sb, f, ino, off, data, marks) && i < |marks| && q < |f.inodes| && Settled(f, sb)
    ensures Settled(marks[i].fs, sb) && q < |marks[i].fs.inodes| && marks[i].upto <= |data|
    ensures Content(marks[i].fs, sb, q) == Expected(f, sb, ino, off, data, marks[i].upto, q)
  {
    hide Allocated, Via, Content, Mapped, OnDisk, Written, History;
    HistoryAt(sb, f, ino, off, data, marks, i);
    var h := marks[i].fs;
    if i > 0 {
      if q == ino {
        if marks[i].upto == 0 {
          assert data[..0] == [];
          WrittenNone(Content(f, sb, ino), off);
        }
      } else {
        KeptContent(f, h, sb, q);
      }
    }
  }

  /** A crash anywhere in a filewrite, that is, in the commit of one of its
      transactions: after recovery the file system is valid, the file holds its old
      bytes with the data up to some transaction's end spliced in, and every other
      file is untouched. */
  lemma WholeWrite(sb: Super, f: Fs, ino: nat, off: nat, data: seq<Byte>, marks: seq<Mark>, i: nat,
                   d: W.Disk, g: W.Region, t: W.Txn, k: nat, js: seq<nat>, q: nat)
    requires History(sb, f, ino, off, data, marks) && i + 1 < |marks| && Settled(f, sb) && q < |f.inodes|
    requires Laid(sb, g) && Shows(d, marks[i].fs, g) && k <= t.Length()
    requires Commits(t, marks[i].fs, marks[i + 1].fs, marks[i + 1].logged, g)
    ensures Survives(d, marks[i].fs, marks[i + 1].fs, sb, g, t, k, js) && |marks[i].fs.inodes| == |f.inodes|
    ensures var m := Mount(W.Crashed(d, g, t, k, js), sb, |f.inodes|);
            var upto := marks[if k <= |t.bs| then i else i + 1].upto;
            Settled(m, sb) && upto <= |data| && Content(m, sb, q) == Expected(f, sb, ino, off, data, upto, q)
    ensures Shows(W.CommitState(d, g, t, t.Length()), marks[i + 1].fs, g)
  {
    hide Allocated, Settled, Laid, Via, Carries, W.Txn.Length, W.Crashed, W.CommitState, W.Clean, Content, Stored, History, Mount, Expected;
    HistoryAt(sb, f, ino, off, data, marks, i);
    HistoryAt(sb, f, ino, off, data, marks, i + 1);
    var a, b := marks[i], marks[i + 1];
    CommitsCarries(t, a.fs, b.fs, b.logged, sb, g);
    CommitIsAtomic(d, a.fs, b.fs, sb, a.owner, b.owner, g, t, k, js);
    CommitShows(d, a.fs, b.fs, sb, g, t);
    MarkContent(sb, f, ino, off, data, marks, i, q);
    MarkContent(sb, f, ino, off, data, marks, i + 1, q);
  }
}
