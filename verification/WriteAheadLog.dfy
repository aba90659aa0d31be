/** The redo log of kernel/log.c as sequences of atomic block writes.

    A disk is a sequence of blocks. The log region holds a header block at
    `start`, followed by `size - 1` slots. The header lists the home block
    numbers of the slots that are committed but perhaps not yet installed. */
module WriteAheadLog {
  import opened Params
  import opened Blocks

  type Disk = seq<Block>

  /** Where the log lies (log.start, log.size, set from the superblock). */
  datatype Region = Region(start: nat, size: nat) {
    predicate Contains(b: nat) { start <= b < start + size }

    /** The region lies on the disk and its slots fit the header's array. */
    predicate Fits(len: nat) {
      1 <= size <= LOGSIZE + 1 && start + size <= len <= UINT_RANGE
    }
  }

  /** One bwrite: an atomic block store. */
  datatype Write = Write(blockno: nat, data: Block)

  // ----- header block -----

  function HeadCount(h: Block): (n: nat) { Word(h, 0) }

  function HeadBlocks(h: Block): (bs: seq<nat>)
    requires HeadCount(h) <= LOGSIZE
    ensures |bs| == HeadCount(h)
  {
    seq(HeadCount(h), i requires 0 <= i < HeadCount(h) => Word(h, i + 1))
  }

  /** The loop of write_head: the count, then the first `k` entries; later
      words of the old header stay. */
  function PutEntries(h: Block, bs: seq<nat>, k: nat): (r: Block)
    requires k <= |bs| <= LOGSIZE
    requires forall i :: 0 <= i < |bs| ==> bs[i] < UINT_RANGE
    ensures HeadCount(r) == |bs|
    ensures forall i :: 0 <= i < k ==> Word(r, i + 1) == bs[i]
  {
    if k == 0 then PutWord(h, 0, |bs|)
    else PutWord(PutEntries(h, bs, k - 1), k, bs[k - 1])
  }

  function PutHead(h: Block, bs: seq<nat>): (r: Block)
    requires |bs| <= LOGSIZE
    requires forall i :: 0 <= i < |bs| ==> bs[i] < UINT_RANGE
    ensures HeadCount(r) == |bs| && HeadBlocks(r) == bs
  {
    PutEntries(h, bs, |bs|)
  }

  // ----- well-formed logs -----

  /** Home block numbers the log may carry: distinct (absorption), on the
      disk, outside the log itself, and no more than there are slots. */
  predicate Loggable(len: nat, g: Region, bs: seq<nat>) {
    InPlace(len, g, bs) && Distinct(bs)
  }

  predicate InPlace(len: nat, g: Region, bs: seq<nat>) {
    && g.Fits(len)
    && |bs| <= g.size - 1
    && (forall i :: 0 <= i < |bs| ==> bs[i] < len && !g.Contains(bs[i]))
  }

  predicate Distinct(bs: seq<nat>) {
    forall i, j :: 0 <= i < j < |bs| ==> bs[i] != bs[j]
  }

  predicate WellFormed(d: Disk, g: Region) {
    && g.Fits(|d|)
    && HeadCount(d[g.start]) <= LOGSIZE
    && Loggable(|d|, g, HeadBlocks(d[g.start]))
  }

  predicate Clean(d: Disk, g: Region) {
    g.Fits(|d|) && HeadCount(d[g.start]) == 0
  }

  lemma CleanIsWellFormed(d: Disk, g: Region)
    requires Clean(d, g)
    ensures WellFormed(d, g) && HeadBlocks(d[g.start]) == []
  {
    assert |HeadBlocks(d[g.start])| == 0;
  }

  // ----- what the disk means -----

  /** First position of `b`, or |bs| if it is absent. */
  function Find(bs: seq<nat>, b: nat): (i: nat)
    ensures i <= |bs| && (i < |bs| ==> bs[i] == b)
    ensures forall j :: 0 <= j < i ==> bs[j] != b
  {
    if bs == [] then 0
    else if bs[|bs| - 1] == b && b !in bs[..|bs| - 1] then |bs| - 1
    else
      var i := Find(bs[..|bs| - 1], b);
      if i < |bs| - 1 then i else |bs|
  }

  /** Block `b` once the stores vals[i] to bs[i] are applied. */
  function Updated(d: Disk, bs: seq<nat>, vals: seq<Block>, b: nat): (v: Block)
    requires |bs| == |vals| && b < |d|
  {
    var i := Find(bs, b);
    if i < |bs| then vals[i] else d[b]
  }

  function Slots(d: Disk, g: Region, n: nat): (vs: seq<Block>)
    requires g.Fits(|d|) && n <= g.size - 1
    ensures |vs| == n && forall i :: 0 <= i < n ==> vs[i] == d[g.start + 1 + i]
  {
    d[g.start + 1..g.start + 1 + n]
  }

  /** Block `b` as a finished recovery would expose it. */
  function Logical(d: Disk, g: Region, b: nat): (v: Block)
    requires WellFormed(d, g) && b < |d|
  {
    var bs := HeadBlocks(d[g.start]);
    Updated(d, bs, Slots(d, g, |bs|), b)
  }

  /** `b` is outside the log region. */
  predicate Home(d: Disk, g: Region, b: nat) { b < |d| && !g.Contains(b) }

  // ----- the writes of recover_from_log and commit -----

  function RecoverLength(d: Disk, g: Region): (n: nat)
    requires WellFormed(d, g)
  {
    HeadCount(d[g.start]) + 1
  }

  /** The j-th write of recover_from_log: install the slots in order, then
      clear the header. */
  function RecoverWrite(d: Disk, g: Region, j: nat): (w: Write)
    requires WellFormed(d, g) && j < RecoverLength(d, g)
    ensures w.blockno < |d|
  {
    var bs := HeadBlocks(d[g.start]);
    if j < |bs| then Write(bs[j], d[g.start + 1 + j])
    else Write(g.start, PutHead(d[g.start], []))
  }

  /** The disk after the first `j` writes of a recovery. */
  function RecoverState(d: Disk, g: Region, j: nat): (e: Disk)
    requires WellFormed(d, g) && j <= RecoverLength(d, g)
    ensures |e| == |d|
  {
    if j == 0 then d
    else
      var w := RecoverWrite(d, g, j - 1);
      RecoverState(d, g, j - 1)[w.blockno := w.data]
  }

  /** A transaction as commit() writes it: home block numbers, their values,
      the header that announces them and the header that clears it again. */
  datatype Txn = Txn(bs: seq<nat>, vals: seq<Block>, head: Block, clear: Block) {
    predicate Legal(len: nat, g: Region) {
      && Fits(len, g) && Distinct(bs)
      && HeadCount(head) == |bs| && HeadBlocks(head) == bs
      && HeadCount(clear) == 0
    }

    predicate Fits(len: nat, g: Region) { InPlace(len, g, bs) && |vals| == |bs| }

    /** Number of block writes; an empty transaction makes none. */
    function Length(): (n: nat) { if bs == [] then 0 else 2 * |bs| + 2 }
  }

  /** The k-th write of commit(): the slots, the header, the home blocks, the
      cleared header. */
  function CommitWrite(g: Region, t: Txn, k: nat): (w: Write)
    requires |t.vals| == |t.bs| && k < t.Length()
  {
    var n := |t.bs|;
    if k < n then Write(g.start + 1 + k, t.vals[k])
    else if k == n then Write(g.start, t.head)
    else if k <= 2 * n then Write(t.bs[k - n - 1], t.vals[k - n - 1])
    else Write(g.start, t.clear)
  }

  /** The disk after the first `k` writes of a commit. */
  function CommitState(d: Disk, g: Region, t: Txn, k: nat): (e: Disk)
    requires t.Fits(|d|, g) && k <= t.Length()
    ensures |e| == |d|
  {
    if k == 0 then d
    else
      var w := CommitWrite(g, t, k - 1);
      CommitState(d, g, t, k - 1)[w.blockno := w.data]
  }

  // ----- recovery is crash-idempotent -----

  /** The first j installs touch exactly their home blocks. */
  lemma {:induction false} InstalledAt(d: Disk, g: Region, j: nat, b: nat)
    requires WellFormed(d, g) && j <= HeadCount(d[g.start]) && b < |d|
    ensures RecoverState(d, g, j)[b] ==
            var i := Find(HeadBlocks(d[g.start]), b); if i < j then d[g.start + 1 + i] else d[b]
  {
    if j > 0 {
      InstalledAt(d, g, j - 1, b);
    }
  }

  /** Installing never touches the log region. */
  lemma InstallKeepsLog(d: Disk, g: Region, j: nat)
    requires WellFormed(d, g) && j <= HeadCount(d[g.start])
    ensures forall b :: g.start <= b < g.start + g.size ==> RecoverState(d, g, j)[b] == d[b]
  {
    forall b | g.start <= b < g.start + g.size ensures RecoverState(d, g, j)[b] == d[b] {
      InstalledAt(d, g, j, b);
    }
  }

  /** Recovery may crash at any write: the log stays well formed. */
  lemma RecoverKeepsForm(d: Disk, g: Region, j: nat)
    requires WellFormed(d, g) && j <= RecoverLength(d, g)
    ensures WellFormed(RecoverState(d, g, j), g)
  {
    if j < RecoverLength(d, g) {
      InstallKeepsLog(d, g, j);
    } else {
      RecoverClean(d, g);
      CleanIsWellFormed(RecoverState(d, g, j), g);
    }
  }

  /** Recovery may crash at any write: the logical state stays what it was. */
  lemma RecoverKeepsMeaning(d: Disk, g: Region, j: nat, b: nat)
    requires WellFormed(d, g) && j <= RecoverLength(d, g) && Home(d, g, b)
    ensures WellFormed(RecoverState(d, g, j), g)
    ensures Logical(RecoverState(d, g, j), g, b) == Logical(d, g, b)
  {
    RecoverKeepsForm(d, g, j);
    if j < RecoverLength(d, g) {
      InstallKeepsLog(d, g, j);
      InstalledAt(d, g, j, b);
    } else {
      RecoverWhole(d, g, b);
      RecoverClean(d, g);
      CleanIsWellFormed(RecoverState(d, g, j), g);
    }
  }

  /** A recovery that runs to the end leaves a clean log. */
  lemma RecoverClean(d: Disk, g: Region)
    requires WellFormed(d, g)
    ensures Clean(RecoverState(d, g, RecoverLength(d, g)), g)
  {
    var n := HeadCount(d[g.start]);
    assert RecoverState(d, g, n + 1)[g.start] == PutHead(d[g.start], []);
  }

  /** A recovery that runs to the end exposes the logical state. */
  lemma RecoverWhole(d: Disk, g: Region, b: nat)
    requires WellFormed(d, g) && Home(d, g, b)
    ensures RecoverState(d, g, RecoverLength(d, g))[b] == Logical(d, g, b)
  {
    hide HeadBlocks, HeadCount, RecoverState, RecoverWrite, Logical, Find;
    var n := HeadCount(d[g.start]);
    InstalledAt(d, g, n, b);
    LogicalOf(d, g, HeadBlocks(d[g.start]), b);
    ClearKeepsHome(d, g, b);
  }

  lemma ClearKeepsHome(d: Disk, g: Region, b: nat)
    requires WellFormed(d, g) && Home(d, g, b)
    ensures RecoverState(d, g, RecoverLength(d, g))[b] == RecoverState(d, g, HeadCount(d[g.start]))[b]
  {
    hide HeadBlocks, HeadCount, PutHead;
    assert RecoverWrite(d, g, HeadCount(d[g.start])).blockno == g.start;
  }

  // ----- commit is atomic -----

  lemma {:induction false} CommitHead(d: Disk, g: Region, t: Txn, k: nat)
    requires t.Fits(|d|, g) && k <= t.Length()
    ensures CommitState(d, g, t, k)[g.start] ==
            if k <= |t.bs| then d[g.start] else if k <= 2 * |t.bs| + 1 then t.head else t.clear
  {
    if k > 0 {
      CommitHead(d, g, t, k - 1);
    }
  }

  lemma {:induction false} CommitSlot(d: Disk, g: Region, t: Txn, k: nat, i: nat)
    requires t.Fits(|d|, g) && k <= t.Length() && i < |t.bs| && i < k
    ensures CommitState(d, g, t, k)[g.start + 1 + i] == t.vals[i]
  {
    if i < k - 1 {
      CommitSlot(d, g, t, k - 1, i);
    }
  }

  lemma {:induction false} CommitHome(d: Disk, g: Region, t: Txn, k: nat, b: nat)
    requires t.Fits(|d|, g) && Distinct(t.bs) && k <= t.Length() && Home(d, g, b)
    ensures CommitState(d, g, t, k)[b] ==
            var i := Find(t.bs, b); if i < |t.bs| && |t.bs| + 1 + i < k then t.vals[i] else d[b]
  {
    if k > 0 {
      CommitHome(d, g, t, k - 1, b);
    }
  }

  lemma CommitKeepsForm(d: Disk, g: Region, t: Txn, k: nat)
    requires Clean(d, g) && t.Legal(|d|, g) && k <= t.Length()
    ensures WellFormed(CommitState(d, g, t, k), g)
  {
    CommitHead(d, g, t, k);
    if k <= |t.bs| || k == 2 * |t.bs| + 2 {
      CleanIsWellFormed(CommitState(d, g, t, k), g);
    }
  }

  /** The logical state after any prefix of commit's writes: unchanged until
      the header is on disk, the whole transaction from then on. */
  lemma CommitMeaning(d: Disk, g: Region, t: Txn, k: nat, b: nat)
    requires Clean(d, g) && t.Legal(|d|, g) && k <= t.Length() && Home(d, g, b)
    ensures WellFormed(CommitState(d, g, t, k), g)
    ensures Logical(CommitState(d, g, t, k), g, b) ==
            if k <= |t.bs| then d[b] else Updated(d, t.bs, t.vals, b)
  {
    hide CommitState, CommitWrite, HeadBlocks, HeadCount, Find, Logical;
    var e, n := CommitState(d, g, t, k), |t.bs|;
    CommitKeepsForm(d, g, t, k);
    CommitHead(d, g, t, k);
    CommitHome(d, g, t, k, b);
    if k <= n || k == 2 * n + 2 {
      CleanIsWellFormed(e, g);
      LogicalClean(e, g, b);
    } else {
      if Find(t.bs, b) < n {
        CommitSlot(d, g, t, k, Find(t.bs, b));
      }
      LogicalOf(e, g, t.bs, b);
    }
  }

  lemma LogicalOf(e: Disk, g: Region, bs: seq<nat>, b: nat)
    requires WellFormed(e, g) && b < |e| && HeadBlocks(e[g.start]) == bs
    ensures Logical(e, g, b) == var i := Find(bs, b); if i < |bs| then e[g.start + 1 + i] else e[b]
  {
    hide HeadBlocks, HeadCount, Find;
  }

  lemma LogicalClean(e: Disk, g: Region, b: nat)
    requires WellFormed(e, g) && Clean(e, g) && b < |e|
    ensures Logical(e, g, b) == e[b]
  {
    hide HeadCount;
  }

  /** A commit that is not interrupted installs the transaction and leaves a
      clean log. */
  lemma CommitWhole(d: Disk, g: Region, t: Txn, b: nat)
    requires Clean(d, g) && t.Legal(|d|, g) && Home(d, g, b)
    ensures Clean(CommitState(d, g, t, t.Length()), g)
    ensures CommitState(d, g, t, t.Length())[b] == Updated(d, t.bs, t.vals, b)
  {
    CommitHead(d, g, t, t.Length());
    CommitHome(d, g, t, t.Length(), b);
  }

  // ----- whole runs -----

  /** The disk after a boot whose recovery crashed after `js[0]` writes, a
      next one after `js[1]` writes, and so on. */
  function Reboots(d: Disk, g: Region, js: seq<nat>): (e: Disk)
    requires WellFormed(d, g)
    ensures WellFormed(e, g) && |e| == |d|
    decreases |js|
  {
    if js == [] then d
    else
      var j := if js[0] <= RecoverLength(d, g) then js[0] else RecoverLength(d, g);
      RecoverKeepsForm(d, g, j);
      Reboots(RecoverState(d, g, j), g, js[1..])
  }

  lemma {:induction false} RebootsKeepMeaning(d: Disk, g: Region, js: seq<nat>, b: nat)
    requires WellFormed(d, g) && Home(d, g, b)
    ensures Logical(Reboots(d, g, js), g, b) == Logical(d, g, b)
    decreases |js|
  {
    if js != [] {
      var j := if js[0] <= RecoverLength(d, g) then js[0] else RecoverLength(d, g);
      RecoverKeepsMeaning(d, g, j, b);
      RebootsKeepMeaning(RecoverState(d, g, j), g, js[1..], b);
    }
  }

  /** Crash after `k` writes of a commit, then recoveries cut short as `js`
      says, then a recovery that completes. */
  function Crashed(d: Disk, g: Region, t: Txn, k: nat, js: seq<nat>): (e: Disk)
    requires Clean(d, g) && t.Legal(|d|, g) && k <= t.Length()
    ensures |e| == |d|
  {
    CommitKeepsForm(d, g, t, k);
    var e := Reboots(CommitState(d, g, t, k), g, js);
    RecoverState(e, g, RecoverLength(e, g))
  }

  /** Crash atomicity: home blocks end exactly at the old state or exactly at
      the whole transaction, the latter iff the first header write (write
      number |bs| + 1) reached the disk; and the log is clean again. */
  lemma CrashAtomicity(d: Disk, g: Region, t: Txn, k: nat, js: seq<nat>, b: nat)
    requires Clean(d, g) && t.Legal(|d|, g) && k <= t.Length() && Home(d, g, b)
    ensures Clean(Crashed(d, g, t, k, js), g)
    ensures Crashed(d, g, t, k, js)[b] == if k <= |t.bs| then d[b] else Updated(d, t.bs, t.vals, b)
  {
    CommitMeaning(d, g, t, k, b);
    var e := CommitState(d, g, t, k);
    RebootsKeepMeaning(e, g, js, b);
    RecoverWhole(Reboots(e, g, js), g, b);
    RecoverClean(Reboots(e, g, js), g);
  }

  /** One transaction of a long run: either an uninterrupted commit or a crash
      after `k` writes followed by recoveries. */
  datatype Epoch = Epoch(t: Txn, crashed: bool, k: nat, js: seq<nat>) {
    predicate Legal(len: nat, g: Region) { t.Legal(len, g) && k <= t.Length() }

    predicate Commits() { !crashed || k > |t.bs| }
  }

  function RunEpoch(d: Disk, g: Region, ep: Epoch): (e: Disk)
    requires Clean(d, g) && ep.Legal(|d|, g)
    ensures |e| == |d|
  {
    if ep.crashed then Crashed(d, g, ep.t, ep.k, ep.js)
    else CommitState(d, g, ep.t, ep.t.Length())
  }

  lemma RunEpochAt(d: Disk, g: Region, ep: Epoch, b: nat)
    requires Clean(d, g) && ep.Legal(|d|, g) && Home(d, g, b)
    ensures Clean(RunEpoch(d, g, ep), g)
    ensures RunEpoch(d, g, ep)[b] == if ep.Commits() then Updated(d, ep.t.bs, ep.t.vals, b) else d[b]
  {
    if ep.crashed {
      CrashAtomicity(d, g, ep.t, ep.k, ep.js, b);
    } else {
      CommitWhole(d, g, ep.t, b);
    }
  }

  lemma RunEpochClean(d: Disk, g: Region, ep: Epoch)
    requires Clean(d, g) && ep.Legal(|d|, g)
    ensures Clean(RunEpoch(d, g, ep), g)
  {
    if ep.crashed {
      CommitKeepsForm(d, g, ep.t, ep.k);
      RecoverClean(Reboots(CommitState(d, g, ep.t, ep.k), g, ep.js), g);
    } else {
      CommitHead(d, g, ep.t, ep.t.Length());
    }
  }

  predicate LegalRun(len: nat, g: Region, eps: seq<Epoch>) {
    forall i :: 0 <= i < |eps| ==> eps[i].Legal(len, g)
  }

  function Run(d: Disk, g: Region, eps: seq<Epoch>): (e: Disk)
    requires Clean(d, g) && LegalRun(|d|, g, eps)
    ensures |e| == |d| && Clean(e, g)
  {
    if eps == [] then d
    else
      var p := Run(d, g, eps[..|eps| - 1]);
      RunEpochClean(p, g, eps[|eps| - 1]);
      RunEpoch(p, g, eps[|eps| - 1])
  }

  /** Block `b` as the committed transactions of a run leave it. */
  function Committed(d: Disk, eps: seq<Epoch>, b: nat): (v: Block)
    requires b < |d| && forall i :: 0 <= i < |eps| ==> |eps[i].t.vals| == |eps[i].t.bs|
  {
    if eps == [] then d[b]
    else
      var ep := eps[|eps| - 1];
      var i := Find(ep.t.bs, b);
      if ep.Commits() && i < |ep.t.bs| then ep.t.vals[i] else Committed(d, eps[..|eps| - 1], b)
  }

  /** Durability over whole runs: whatever crashed and whenever, each home
      block holds what the last committed transaction naming it stored. */
  lemma {:induction false} RunIsCommitted(d: Disk, g: Region, eps: seq<Epoch>, b: nat)
    requires Clean(d, g) && LegalRun(|d|, g, eps) && Home(d, g, b)
    ensures Run(d, g, eps)[b] == Committed(d, eps, b)
  {
    if eps != [] {
      RunIsCommitted(d, g, eps[..|eps| - 1], b);
      RunEpochAt(Run(d, g, eps[..|eps| - 1]), g, eps[|eps| - 1], b);
    }
  }
}
