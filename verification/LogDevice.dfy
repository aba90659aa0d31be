/** The code of kernel/log.c as one object: in-memory header, counters, the
    buffers it keeps pinned, and the disk it writes one block at a time. */
module LogDevice {
  import opened Params
  import opened Blocks
  import opened WriteAheadLog
  import LogAdmission

  /** The block writes a run of commit() or recover_from_log() is to make from
      disk `d`; bwrite is allowed only to make the next one, so every disk a
      crash can expose is a state of the plan. */
  datatype Plan = CommitPlan(d: Disk, t: Txn) | RecoverPlan(d: Disk) {
    predicate Legal(g: Region) {
      match this
      case CommitPlan(d, t) => t.Fits(|d|, g)
      case RecoverPlan(d) => WellFormed(d, g)
    }

    function Length(g: Region): (n: nat)
      requires Legal(g)
    {
      match this
      case CommitPlan(d, t) => t.Length()
      case RecoverPlan(d) => RecoverLength(d, g)
    }

    function Next(g: Region, k: nat): (w: Write)
      requires Legal(g) && k < Length(g)
    {
      match this
      case CommitPlan(d, t) => CommitWrite(g, t, k)
      case RecoverPlan(d) => RecoverWrite(d, g, k)
    }

    /** The disk after `k` writes of the plan. */
    function State(g: Region, k: nat): (e: Disk)
      requires Legal(g) && k <= Length(g)
    {
      match this
      case CommitPlan(d, t) => CommitState(d, g, t, k)
      case RecoverPlan(d) => RecoverState(d, g, k)
    }
  }

  lemma NoWrites(d: Disk, g: Region, t: Txn)
    requires t.Fits(|d|, g)
    ensures CommitState(d, g, t, 0) == d
  {}

  function Elems(bs: seq<nat>): (r: set<nat>) { set b | b in bs }

  lemma ElemsStep(bs: seq<nat>, k: nat)
    requires k < |bs|
    ensures Elems(bs[..k + 1]) == Elems(bs[..k]) + {bs[k]}
  {
    assert bs[..k + 1] == bs[..k] + [bs[k]];
  }

  /** The pinned value of each block of `bs`. */
  ghost function PinnedAll(bs: seq<nat>, pinned: map<nat, Block>): (vs: seq<Block>)
    requires forall i :: 0 <= i < |bs| ==> bs[i] in pinned
    ensures |vs| == |bs| && forall i :: 0 <= i < |bs| ==> vs[i] == pinned[bs[i]]
  {
    seq(|bs|, i requires 0 <= i < |bs| => pinned[bs[i]])
  }

  /** The pinned buffers once the first `k` logged blocks are unpinned. */
  function Left(pins: map<nat, Block>, bs: seq<nat>, k: nat): (m: map<nat, Block>)
    requires k <= |bs|
  {
    pins - Elems(bs[..k])
  }

  lemma LeftEnds(pins: map<nat, Block>, bs: seq<nat>)
    ensures Left(pins, bs, 0) == pins && (pins.Keys == Elems(bs) ==> Left(pins, bs, |bs|) == map[])
  {
    assert bs[..|bs|] == bs;
  }

  lemma LeftNext(pins: map<nat, Block>, bs: seq<nat>, k: nat, v: Block)
    requires k < |bs|
    ensures Left(pins, bs, k) - {bs[k]} == Left(pins, bs, k + 1) == Left(pins, bs, k)[bs[k] := v] - {bs[k]}
    ensures Left(pins, bs, k).Keys <= pins.Keys
  {
    ElemsStep(bs, k);
  }

  /** What bread shows: the pinned buffer if there is one, else the disk block. */
  function Cached(d: Disk, pinned: map<nat, Block>, b: nat): (v: Block)
    requires b < |d|
  {
    if b in pinned then pinned[b] else d[b]
  }

  lemma UpdatedIsCached(d: Disk, bs: seq<nat>, vals: seq<Block>, pinned: map<nat, Block>, b: nat)
    requires |vals| == |bs| && b < |d| && pinned.Keys == Elems(bs)
    requires forall i :: 0 <= i < |bs| ==> bs[i] in pinned && vals[i] == pinned[bs[i]]
    ensures Updated(d, bs, vals, b) == Cached(d, pinned, b)
  {
  }

  lemma CommitClean(d: Disk, g: Region, t: Txn)
    requires Clean(d, g) && t.Legal(|d|, g)
    ensures Clean(CommitState(d, g, t, t.Length()), g)
  {
    hide HeadCount, HeadBlocks;
    CommitHead(d, g, t, t.Length());
  }

  class Log {
    const g: Region
    var disk: Disk
    var pinned: map<nat, Block>        // data of the buffers bpin keeps cached
    var n: nat                         // log.lh.n
    var block: array<nat>              // log.lh.block
    var outstanding: int
    var committing: bool
    ghost var plan: Plan
    ghost var done: nat                // writes of the plan made so far

    /** The header array has the source's size and `n` entries in use. */
    ghost predicate Shaped()
      reads this
    {
      block.Length == LOGSIZE && n <= LOGSIZE
    }

    ghost function Logged(): (bs: seq<nat>)
      reads this, block
      requires Shaped()
    {
      block[..n]
    }

    /** The header can be committed and exactly the logged blocks are pinned. */
    ghost predicate Valid()
      reads this, block
    {
      Shaped() && Loggable(|disk|, g, Logged()) && pinned.Keys == Elems(Logged())
    }

    /** The disk is where the plan says it is. */
    ghost predicate Planned()
      reads this
    {
      plan.Legal(g) && done <= plan.Length(g) && disk == plan.State(g, done)
    }

    constructor (g: Region, disk: Disk)
      requires WellFormed(disk, g)
      ensures this.g == g && this.disk == disk && pinned == map[] && fresh(block)
      ensures Shaped() && n == 0 && outstanding == 0 && !committing
    {
      this.g, this.disk, pinned, n, outstanding, committing := g, disk, map[], 0, 0, false;
      block := new nat[LOGSIZE](_ => 0);
      plan, done := RecoverPlan(disk), 0;
    }

    /** bread: the pinned buffer if there is one, else the disk block. */
    function Bread(b: nat): (v: Block)
      reads this
      requires b < |disk|
    {
      Cached(disk, pinned, b)
    }

    method Bwrite(b: nat, data: Block)
      requires Planned() && done < plan.Length(g) && Write(b, data) == plan.Next(g, done) && b < |disk|
      modifies `disk, `pinned, `done
      ensures Planned() && done == old(done) + 1 && disk == old(disk)[b := data]
      ensures pinned == if b in old(pinned) then old(pinned)[b := data] else old(pinned)
    {
      hide Word, PutHead, HeadBlocks, WellFormed;
      disk := disk[b := data];
      if b in pinned {
        pinned := pinned[b := data];
      }
      done := done + 1;
    }

    method WriteHead()
      requires Shaped() && InPlace(|disk|, g, Logged()) && g.start !in pinned
      requires Planned() && done < plan.Length(g)
      requires plan.Next(g, done) == Write(g.start, PutHead(disk[g.start], Logged()))
      modifies `disk, `pinned, `done
      ensures Planned() && done == old(done) + 1 && pinned == old(pinned)
    {
      hide Word, CommitState, RecoverState, CommitWrite, RecoverWrite, HeadBlocks, WellFormed;
      ghost var bs, h := Logged(), disk[g.start];
      var hb := PutWord(Bread(g.start), 0, n);
      for i := 0 to n
        invariant hb == PutEntries(h, bs, i)
      {
        hb := PutWord(hb, i + 1, block[i]);
      }
      Bwrite(g.start, hb);
    }

    method ReadHead()
      requires Shaped() && WellFormed(disk, g) && pinned == map[]
      modifies `n, block
      ensures Shaped() && Logged() == HeadBlocks(disk[g.start])
    {
      var buf := Bread(g.start);
      n := HeadCount(buf);
      for i := 0 to n
        invariant n == HeadCount(buf)
        invariant forall j :: 0 <= j < i ==> block[j] == Word(buf, j + 1)
      {
        block[i] := Word(buf, i + 1);
      }
    }

    /** The plan's next `n` writes copy the slots to their home blocks. */
    ghost predicate InstallsNext()
      reads this, block
    {
      && Shaped() && Planned() && InPlace(|disk|, g, Logged()) && done + n < plan.Length(g)
      && match plan
         case CommitPlan(d, t) => t.bs == Logged() && done == n + 1
         case RecoverPlan(d) => HeadBlocks(d[g.start]) == Logged() && done == 0
    }

    lemma SlotUnread(tail: nat)
      requires Shaped() && Planned() && InPlace(|disk|, g, Logged()) && tail < n && done < plan.Length(g)
      requires match plan
               case CommitPlan(d, t) => t.bs == Logged() && done == n + 1 + tail
               case RecoverPlan(d) => HeadBlocks(d[g.start]) == Logged() && done == tail
      ensures plan.Next(g, done) == Write(block[tail], disk[g.start + tail + 1])
    {
      match plan
      case CommitPlan(d, t) => CommitSlot(d, g, t, done, tail);
      case RecoverPlan(d) => InstallKeepsLog(d, g, tail);
    }

    /** Log slots are never pinned. */
    lemma SlotNotPinned(tail: nat, m: map<nat, Block>, recovering: bool, pins: map<nat, Block>)
      requires Shaped() && InPlace(|disk|, g, Logged()) && tail < n && pins.Keys <= Elems(Logged())
      requires if recovering then m == map[] else m.Keys <= pins.Keys
      ensures g.start + tail + 1 < |disk| && g.start + tail + 1 !in m
    {
    }

    /** Copy each slot to its home block, unpinning as it goes. */
    method InstallTrans(recovering: bool)
      requires InstallsNext()
      requires pinned.Keys == if recovering then {} else Elems(Logged())
      modifies `disk, `pinned, `done
      ensures Planned() && done == old(done) + n && pinned == map[]
    {
      hide PutEntries, HeadBlocks, HeadCount, Word, PutWord, PutHead, CommitState, RecoverState, CommitWrite, RecoverWrite;
      hide Plan.State, Plan.Next, Plan.Legal, Plan.Length, Elems, Left;
      ghost var bs, pins := Logged(), pinned;
      LeftEnds(pins, bs);
      for tail := 0 to n
        invariant Planned() && done == old(done) + tail && |disk| == |old(disk)|
        invariant pinned == if recovering then map[] else Left(pins, bs, tail)
      {
        LeftNext(pins, bs, tail, disk[g.start + tail + 1]);
        SlotUnread(tail);
        SlotNotPinned(tail, pinned, recovering, pins);
        var lbuf := Bread(g.start + tail + 1);
        Bwrite(block[tail], lbuf);
        if !recovering {
          pinned := pinned - {block[tail]};
        }
      }
    }

    /** The values a commit will store, in header order. */
    ghost function Values(): (vs: seq<Block>)
      reads this, block
      requires Valid()
      ensures |vs| == n && forall i :: 0 <= i < n ==> block[i] in pinned && vs[i] == pinned[block[i]]
    {
      PinnedAll(Logged(), pinned)
    }

    /** The transaction a commit from this state performs. */
    ghost function Pending(): (t: Txn)
      reads this, block
      requires Valid()
      ensures t.bs == Logged() && t.vals == Values() && t.Legal(|disk|, g)
    {
      var head := PutHead(disk[g.start], Logged());
      Txn(Logged(), Values(), head, PutHead(head, []))
    }

    /** Copy each pinned block to its slot. */
    method WriteLog()
      requires Valid() && plan == CommitPlan(disk, Pending()) && done == 0
      modifies `disk, `pinned, `done
      ensures Planned() && done == n && pinned == old(pinned)
    {
      hide Word, PutHead, HeadBlocks, RecoverState, RecoverWrite, WellFormed;
      ghost var t := Pending();
      for tail := 0 to n
        invariant Planned() && done == tail && pinned == old(pinned) && |disk| == |old(disk)|
      {
        var from := Bread(block[tail]);
        Bwrite(g.start + tail + 1, from);
      }
    }

    /** commit(): makes exactly the writes of the pending transaction. */
    method Commit()
      requires Valid()
      modifies `disk, `pinned, `n, `plan, `done
      ensures plan == CommitPlan(old(disk), old(Pending())) && Planned() && done == plan.Length(g)
      ensures Shaped() && n == 0 && pinned == map[]
    {
      hide PutEntries, HeadBlocks, HeadCount, Word, PutWord, CommitState, RecoverState, RecoverWrite, PinnedAll;
      ghost var d, t := disk, Pending();
      plan, done := CommitPlan(d, t), 0;
      NoWrites(d, g, t);
      if n > 0 {
        WriteLog();
        CommitHead(d, g, t, n);
        WriteHead();
        InstallTrans(false);
        CommitHead(d, g, t, 2 * n + 1);
        n := 0;
        WriteHead();
      }
    }

    /** end_op() without other processes: the last operation out commits, and then
        every block on disk is what readers of the cache saw. */
    method EndOp() returns (panic: bool)
      requires Valid() && Clean(disk, g)
      modifies `outstanding, `committing, `disk, `pinned, `n, `plan, `done
      ensures panic == old(committing) && outstanding == old(outstanding) - 1
      ensures panic || outstanding != 0 ==> committing == old(committing) && disk == old(disk) && pinned == old(pinned) && n == old(n)
      ensures !panic && outstanding == 0 ==> !committing && n == 0 && pinned == map[] && |disk| == |old(disk)| && Clean(disk, g)
      ensures !panic && outstanding == 0 ==>
                forall b :: 0 <= b < |disk| && !g.Contains(b) ==> disk[b] == if b in old(pinned) then old(pinned)[b] else old(disk)[b]
    {
      hide PutHead, HeadBlocks, HeadCount, CommitState, CommitWrite, RecoverState, RecoverWrite, PinnedAll, Clean, Updated;
      outstanding := outstanding - 1;
      if committing { return true; }
      if outstanding == 0 {
        committing := true;
        ghost var d, t := disk, Pending();
        Commit();
        CommitClean(d, g, t);
        forall b | 0 <= b < |disk| && !g.Contains(b) ensures disk[b] == Cached(d, old(pinned), b) {
          CommitWhole(d, g, t, b);
          UpdatedIsCached(d, t.bs, t.vals, old(pinned), b);
        }
        committing := false;
      }
      return false;
    }

    /** recover_from_log(), run on a freshly booted log. */
    method RecoverFromLog()
      requires Shaped() && WellFormed(disk, g) && pinned == map[]
      modifies `disk, `pinned, `n, block, `plan, `done
      ensures plan == RecoverPlan(old(disk)) && Planned() && done == plan.Length(g)
      ensures Shaped() && n == 0 && pinned == map[]
    {
      ghost var d := disk;
      plan, done := RecoverPlan(d), 0;
      ReadHead();
      InstallTrans(true);
      InstallKeepsLog(d, g, n);
      n := 0;
      WriteHead();
    }

    /** One pass of begin_op's loop under log.lock. */
    method TryBeginOp() returns (admitted: bool)
      requires Shaped()
      modifies `outstanding
      ensures admitted <==> !committing && n + (old(outstanding) + 1) * MAXOPBLOCKS <= LOGSIZE
      ensures outstanding == if admitted then old(outstanding) + 1 else old(outstanding)
    {
      if committing {
        admitted := false;
      } else if n + (outstanding + 1) * MAXOPBLOCKS > LOGSIZE {
        admitted := false;
      } else {
        outstanding := outstanding + 1;
        admitted := true;
      }
    }

    /** log_write of a buffer holding `data`, with absorption. */
    method LogWrite(b: nat, data: Block) returns (panic: bool)
      requires Valid() && b < |disk| && !g.Contains(b)
      modifies `n, `pinned, block
      ensures Valid() && (panic <==> old(n) >= LOGSIZE || old(n) >= g.size - 1 || outstanding < 1)
      ensures panic ==> n == old(n) && pinned == old(pinned) && Logged() == old(Logged())
      ensures !panic ==> pinned == old(pinned)[b := data]
      ensures !panic ==> Logged() == if b in old(Logged()) then old(Logged()) else old(Logged()) + [b]
    {
      panic := n >= LOGSIZE || n >= g.size - 1 || outstanding < 1;
      if panic {
        return;
      }
      ghost var bs := Logged();
      var i := 0;
      while i < n && block[i] != b
        invariant 0 <= i <= n && b !in bs[..i]
      {
        i := i + 1;
      }
      block[i] := b;
      pinned := pinned[b := data];
      if i == n {
        n := n + 1;
        assert Logged() == bs + [b];
      } else {
        assert bs[i] == b;
        assert Logged() == bs;
      }
    }
  }
}
