/** kernel/bio.c under every interleaving: what callers of bread see. Each
    action is one critical section under bcache.lock or a buffer's sleep-lock,
    or one disk transfer. */
module BufferCoherence {
  import opened Blocks

  datatype Key = Key(dev: nat, blockno: nat)

  /** What binit leaves in every buffer. */
  const BootKey := Key(0, 0)

  /** struct buf without its ring links. `owner` is the call holding the
      sleep-lock, `pinned` the log's extra reference. */
  datatype Buf = Buf(key: Key, valid: bool, refcnt: nat, data: Block, owner: int, pinned: bool)

  /** Relation of a held buffer's bytes to the disk: as bread or log_write left
      them, changed by the caller, or just written by bwrite. */
  datatype Mode = Kept | Dirty | Synced

  /** A bread..brelse bracket in progress on buffer `i`. */
  datatype Call =
    | Idle
    | Waiting(i: nat, key: Key)              // past bget's critical section
    | Locked(i: nat, key: Key)               // holds the sleep-lock
    | Reading(i: nat, key: Key)              // virtio_disk_rw(b, 0)
    | Ready(i: nat, key: Key, mode: Mode)    // bread has returned
    | Releasing(i: nat, key: Key)            // brelse, sleep-lock dropped

  datatype State = State(bufs: seq<Buf>, calls: seq<Call>, disk: map<Key, Block>, store: map<Key, Block>)

  datatype Action =
    | Hit(c: nat, i: nat, key: Key) | Recycle(c: nat, i: nat, key: Key)
    | Acquire(c: nat) | CheckValid(c: nat) | ReadDone(c: nat)
    | Modify(c: nat, data: Block) | LogWrite(c: nat) | Bwrite(c: nat) | Unpin(c: nat)
    | ReleaseSleep(c: nat) | Decref(c: nat)

  datatype Outcome = Live(s: State) | Stuck

  /** A block never stored reads as zeros. */
  function Get(m: map<Key, Block>, k: Key): (b: Block) { if k in m then m[k] else ZeroBlock() }

  function Keys(bufs: seq<Buf>): (r: set<Key>) { set i | 0 <= i < |bufs| :: bufs[i].key }

  predicate References(call: Call, i: nat) { !call.Idle? && call.i == i }
  predicate Holds(call: Call, i: nat) { (call.Locked? || call.Reading? || call.Ready?) && call.i == i }

  function Put(s: State, c: nat, call: Call, i: nat, b: Buf): (t: State)
    requires c < |s.calls| && i < |s.bufs|
  {
    s.(calls := s.calls[c := call], bufs := s.bufs[i := b])
  }

  /** Callers: only the kernel's device number is asked for, a changed buffer
      is logged or written before brelse, and the log unpins only right after
      it wrote the block home. */
  function Step(s: State, a: Action): (o: Outcome) {
    if a.c >= |s.calls| then Stuck
    else if s.calls[a.c].Idle? then BgetStep(s, a)
    else if s.calls[a.c].i >= |s.bufs| then Stuck
    else HeldStep(s, a, s.calls[a.c], s.bufs[s.calls[a.c].i])
  }

  /** bget's critical section: count a cached buffer, or take over any unused
      one for a block that is not cached. */
  function BgetStep(s: State, a: Action): (o: Outcome)
    requires a.c < |s.calls|
  {
    if !(a.Hit? || a.Recycle?) || a.i >= |s.bufs| || a.key == BootKey then Stuck
    else if a.Hit? && s.bufs[a.i].key == a.key then
      Live(Put(s, a.c, Waiting(a.i, a.key), a.i, s.bufs[a.i].(refcnt := s.bufs[a.i].refcnt + 1)))
    else if a.Recycle? && a.key !in Keys(s.bufs) && s.bufs[a.i].refcnt == 0 then
      Live(Put(s, a.c, Waiting(a.i, a.key), a.i, s.bufs[a.i].(key := a.key, valid := false, refcnt := 1)))
    else Stuck
  }

  function HeldStep(s: State, a: Action, call: Call, b: Buf): (o: Outcome)
    requires a.c < |s.calls| && !call.Idle? && call.i < |s.bufs|
  {
    var c, i, key := a.c, call.i, call.key;
    match a
    case Acquire(_) =>
      if call.Waiting? && b.owner < 0 then Live(Put(s, c, Locked(i, key), i, b.(owner := c))) else Stuck
    case CheckValid(_) =>
      if !call.Locked? then Stuck
      else if b.valid then Live(Put(s, c, Ready(i, key, Kept), i, b))
      else Live(Put(s, c, Reading(i, key), i, b))
    case ReadDone(_) =>
      if call.Reading? then Live(Put(s, c, Ready(i, key, Kept), i, b.(valid := true, data := Get(s.disk, b.key)))) else Stuck
    case Modify(_, data) =>
      if call.Ready? then Live(Put(s, c, Ready(i, key, Dirty), i, b.(data := data)).(store := s.store[b.key := data])) else Stuck
    case LogWrite(_) =>
      if call.Ready? then
        Live(Put(s, c, Ready(i, key, Kept), i, b.(pinned := true, refcnt := if b.pinned then b.refcnt else b.refcnt + 1)))
      else Stuck
    case Bwrite(_) =>
      if call.Ready? then Live(Put(s, c, Ready(i, key, Synced), i, b).(disk := s.disk[b.key := b.data])) else Stuck
    case Unpin(_) =>
      if call.Ready? && call.mode.Synced? && b.pinned && b.refcnt > 0
      then Live(Put(s, c, call, i, b.(pinned := false, refcnt := b.refcnt - 1))) else Stuck
    case ReleaseSleep(_) =>
      if call.Ready? && !call.mode.Dirty? then Live(Put(s, c, Releasing(i, key), i, b.(owner := -1))) else Stuck
    case Decref(_) =>
      if call.Releasing? && b.refcnt > 0 then Live(Put(s, c, Idle, i, b.(refcnt := b.refcnt - 1))) else Stuck
    case _ => Stuck
  }

  function Run(s: State, acts: seq<Action>): (o: Outcome) {
    if acts == [] then Live(s)
    else
      match Run(s, acts[..|acts| - 1])
      case Live(t) => Step(t, acts[|acts| - 1])
      case Stuck => Stuck
  }

  function Boot(nbuf: nat, ncalls: nat, disk: map<Key, Block>): (s: State) {
    State(seq(nbuf, _ => Buf(BootKey, false, 0, ZeroBlock(), -1, false)), seq(ncalls, _ => Idle), disk, disk)
  }

  // ----- counting references -----

  function Refs(calls: seq<Call>, i: nat): (n: nat) {
    if calls == [] then 0
    else Refs(calls[..|calls| - 1], i) + if References(calls[|calls| - 1], i) then 1 else 0
  }

  lemma {:induction false} RefsUpdate(calls: seq<Call>, c: nat, call: Call, i: nat)
    requires c < |calls|
    ensures Refs(calls[c := call], i) ==
            Refs(calls, i) - (if References(calls[c], i) then 1 else 0) + (if References(call, i) then 1 else 0)
  {
    var k := |calls| - 1;
    if c == k {
      assert calls[c := call][..k] == calls[..k];
    } else {
      RefsUpdate(calls[..k], c, call, i);
      assert calls[c := call][..k] == calls[..k][c := call];
    }
  }

  lemma {:induction false} RefsPositive(calls: seq<Call>, c: nat, i: nat)
    requires c < |calls| && References(calls[c], i)
    ensures Refs(calls, i) > 0
  {
    if c < |calls| - 1 {
      RefsPositive(calls[..|calls| - 1], c, i);
    }
  }

  // ----- the invariant -----

  /** Reference counts are exact. */
  predicate Counted(s: State) {
    && (forall c :: 0 <= c < |s.calls| && !s.calls[c].Idle? ==> s.calls[c].i < |s.bufs|)
    && (forall i :: 0 <= i < |s.bufs| ==>
          s.bufs[i].refcnt == Refs(s.calls, i) + if s.bufs[i].pinned then 1 else 0)
  }

  /** At most one buffer per block; boot-time buffers excepted. */
  predicate Unique(s: State) {
    forall i, j :: 0 <= i < j < |s.bufs| && s.bufs[i].key == s.bufs[j].key ==> s.bufs[i].key == BootKey
  }

  /** A call's buffer carries its block, and holding it is exclusive. */
  predicate Attached(s: State) { forall c :: 0 <= c < |s.calls| ==> AttachedAt(s, c) }

  predicate AttachedAt(s: State, c: nat)
    requires c < |s.calls|
  {
    !s.calls[c].Idle? ==>
      && s.calls[c].i < |s.bufs|
      && s.bufs[s.calls[c].i].key == s.calls[c].key != BootKey
      && (s.bufs[s.calls[c].i].owner == c <==> Holds(s.calls[c], s.calls[c].i))
      && (s.calls[c].Ready? ==> s.bufs[s.calls[c].i].valid)
      && (s.calls[c].Reading? ==> !s.bufs[s.calls[c].i].valid)
  }

  /** Owners are real calls. */
  predicate Owned(s: State) {
    forall i :: 0 <= i < |s.bufs| && s.bufs[i].owner >= 0 ==>
      s.bufs[i].owner < |s.calls| && Holds(s.calls[s.bufs[i].owner], i)
  }

  /** A held buffer's bytes may differ from the disk: the call changed them. */
  predicate DirtyHeld(s: State, i: nat)
    requires i < |s.bufs|
  {
    var c := s.bufs[i].owner;
    0 <= c < |s.calls| && s.calls[c].Ready? && s.calls[c].mode.Dirty?
  }

  /** Valid buffers hold what was last stored, and pinned ones are valid. */
  predicate Stored(s: State) {
    forall i :: 0 <= i < |s.bufs| ==>
      && (s.bufs[i].valid ==> s.bufs[i].data == Get(s.store, s.bufs[i].key))
      && (s.bufs[i].pinned ==> s.bufs[i].valid)
  }

  /** The disk lags only behind a buffer that is pinned or being changed. */
  predicate Lagging(s: State) {
    && (forall i :: 0 <= i < |s.bufs| && s.bufs[i].key != BootKey && !s.bufs[i].pinned && !DirtyHeld(s, i) ==>
          Get(s.disk, s.bufs[i].key) == Get(s.store, s.bufs[i].key))
    && (forall c :: 0 <= c < |s.calls| && s.calls[c].Ready? && s.calls[c].mode.Synced? ==>
          Get(s.disk, s.calls[c].key) == Get(s.store, s.calls[c].key))
  }

  /** Blocks in no buffer are intact on disk. */
  ghost predicate Uncached(s: State) {
    forall key :: key != BootKey && key !in Keys(s.bufs) ==> Get(s.disk, key) == Get(s.store, key)
  }

  ghost predicate Inv(s: State) {
    Counted(s) && Unique(s) && Attached(s) && Owned(s) && Stored(s) && Lagging(s) && Uncached(s)
  }

  // ----- preservation -----

  /** Every action changes one call and one buffer. */
  lemma StepFrame(s: State, a: Action, t: State, i: nat)
    requires Step(s, a) == Live(t) && a.c < |s.calls| && i == if s.calls[a.c].Idle? then a.i else s.calls[a.c].i
    ensures i < |s.bufs| && |t.bufs| == |s.bufs| && |t.calls| == |s.calls|
    ensures t.bufs == s.bufs[i := t.bufs[i]] && t.calls == s.calls[a.c := t.calls[a.c]]
  {
    hide Get, Keys;
  }

  lemma StepSizes(s: State, a: Action, t: State)
    requires Step(s, a) == Live(t)
    ensures |t.bufs| == |s.bufs| && |t.calls| == |s.calls|
  {
    StepFrame(s, a, t, if s.calls[a.c].Idle? then a.i else s.calls[a.c].i);
  }

  lemma CountedAt(s: State, a: Action, t: State, i: nat)
    requires Counted(s) && Step(s, a) == Live(t) && i < |s.bufs| && |t.bufs| == |s.bufs|
    ensures t.bufs[i].refcnt == Refs(t.calls, i) + if t.bufs[i].pinned then 1 else 0
  {
    hide Get, Keys, Refs;
    RefsUpdate(s.calls, a.c, t.calls[a.c], i);
  }

  lemma StepCounted(s: State, a: Action, t: State)
    requires Inv(s) && Step(s, a) == Live(t)
    ensures Counted(t)
  {
    hide Get, Keys, Refs, Unique, Attached, Owned, Stored, Lagging, Uncached;
    StepFrame(s, a, t, if s.calls[a.c].Idle? then a.i else s.calls[a.c].i);
    forall i | 0 <= i < |t.bufs| ensures t.bufs[i].refcnt == Refs(t.calls, i) + if t.bufs[i].pinned then 1 else 0 {
      CountedAt(s, a, t, i);
    }
    hide HeldStep, BgetStep;
  }

  lemma StepUnique(s: State, a: Action, t: State)
    requires Inv(s) && Step(s, a) == Live(t)
    ensures Unique(t)
  {
    hide Get, Counted, Attached, Owned, Stored, Lagging, Uncached, Keys;
    if a.Recycle? {
      forall j | 0 <= j < |s.bufs| ensures s.bufs[j].key in Keys(s.bufs) { KeyCached(s, j); }
    }
  }

  /** A recycled buffer is one no call refers to. */
  lemma RecycledIsFree(s: State, i: nat)
    requires Inv(s) && i < |s.bufs| && s.bufs[i].refcnt == 0
    ensures !s.bufs[i].pinned && s.bufs[i].owner < 0
    ensures forall c :: 0 <= c < |s.calls| ==> !References(s.calls[c], i)
  {
    hide Unique, Attached, Stored, Lagging, Uncached, Refs;
    forall c | 0 <= c < |s.calls| ensures !References(s.calls[c], i) {
      if References(s.calls[c], i) {
        RefsPositive(s.calls, c, i);
      }
    }
  }

  lemma StillAttached(s: State, a: Action, t: State, c: nat)
    requires Step(s, a) == Live(t) && c < |s.calls| == |t.calls| && AttachedAt(s, c) && AttachedAt(s, a.c)
    requires a.Recycle? && s.calls[a.c].Idle? ==> !References(s.calls[c], a.i) && s.bufs[a.i].owner < 0
    requires Owned(s)
    ensures AttachedAt(t, c)
  {
    hide Keys, Get;
  }

  lemma StepAttached(s: State, a: Action, t: State)
    requires Inv(s) && Step(s, a) == Live(t) && |t.calls| == |s.calls|
    ensures Attached(t)
  {
    hide Counted, Unique, Stored, Lagging, Uncached, Keys, Get, AttachedAt, Owned;
    if a.Recycle? && s.calls[a.c].Idle? {
      RecycledIsFree(s, a.i);
    }
    forall c | 0 <= c < |t.calls| ensures AttachedAt(t, c) {
      StillAttached(s, a, t, c);
    }
  }

  lemma StepOwned(s: State, a: Action, t: State)
    requires Inv(s) && Step(s, a) == Live(t)
    ensures Owned(t)
  {
    hide Counted, Unique, Stored, Lagging, Uncached, Keys, Get;
    assert AttachedAt(s, a.c);
    hide Attached;
    if a.Recycle? {
      RecycledIsFree(s, a.i);
    }
  }

  lemma StepStored(s: State, a: Action, t: State)
    requires Inv(s) && Step(s, a) == Live(t)
    ensures Stored(t)
  {
    hide Counted, Owned, Uncached, Keys, Get;
    GetStore(s, a, t);
    assert AttachedAt(s, a.c);
    hide Attached;
    if a.Recycle? {
      RecycledIsFree(s, a.i);
    }
  }

  /** What an action does to the two maps. */
  lemma GetStore(s: State, a: Action, t: State)
    requires Step(s, a) == Live(t) && a.c < |s.calls|
    ensures forall k :: Get(t.store, k) ==
              if a.Modify? && !s.calls[a.c].Idle? && k == s.bufs[s.calls[a.c].i].key then a.data else Get(s.store, k)
    ensures forall k :: Get(t.disk, k) ==
              if a.Bwrite? && !s.calls[a.c].Idle? && k == s.bufs[s.calls[a.c].i].key then s.bufs[s.calls[a.c].i].data
              else Get(s.disk, k)
  {
    hide Keys;
  }

  lemma StepLagging(s: State, a: Action, t: State)
    requires Inv(s) && Step(s, a) == Live(t) && |t.bufs| == |s.bufs| && |t.calls| == |s.calls|
    ensures Lagging(t)
  {
    hide Step, Inv, Get, DirtyHeld;
    forall j | 0 <= j < |t.bufs| && t.bufs[j].key != BootKey && !t.bufs[j].pinned && !DirtyHeld(t, j)
      ensures Get(t.disk, t.bufs[j].key) == Get(t.store, t.bufs[j].key)
    {
      BufLagging(s, a, t, j);
    }
    forall c | 0 <= c < |t.calls| && t.calls[c].Ready? && t.calls[c].mode.Synced?
      ensures Get(t.disk, t.calls[c].key) == Get(t.store, t.calls[c].key)
    {
      CallLagging(s, a, t, c);
    }
  }

  lemma BufLagging(s: State, a: Action, t: State, j: nat)
    requires Inv(s) && Step(s, a) == Live(t) && j < |s.bufs| == |t.bufs|
    requires t.bufs[j].key != BootKey && !t.bufs[j].pinned && !DirtyHeld(t, j)
    ensures Get(t.disk, t.bufs[j].key) == Get(t.store, t.bufs[j].key)
  {
    hide Counted, Keys, Get;
    GetStore(s, a, t);
    assert AttachedAt(s, a.c);
    hide Attached;
    if a.Recycle? {
      RecycledIsFree(s, a.i);
    }
    KeyCached(s, j);
  }

  lemma CallLagging(s: State, a: Action, t: State, c: nat)
    requires Inv(s) && Step(s, a) == Live(t) && c < |s.calls| == |t.calls|
    requires t.calls[c].Ready? && t.calls[c].mode.Synced?
    ensures Get(t.disk, t.calls[c].key) == Get(t.store, t.calls[c].key)
  {
    hide Counted, Uncached, Keys, Get;
    GetStore(s, a, t);
    assert AttachedAt(s, a.c) && AttachedAt(s, c);
    hide Attached;
  }

  /** Names the key of buffer `j` as cached. */
  lemma KeyCached(s: State, j: nat)
    requires j < |s.bufs|
    ensures s.bufs[j].key in Keys(s.bufs)
  {}

  lemma StepUncached(s: State, a: Action, t: State)
    requires Inv(s) && Step(s, a) == Live(t) && |t.bufs| == |s.bufs|
    ensures Uncached(t)
  {
    hide Step, Inv, Get, Keys;
    forall key | key != BootKey && key !in Keys(t.bufs) ensures Get(t.disk, key) == Get(t.store, key) {
      UncachedKey(s, a, t, key);
    }
  }

  lemma UncachedKey(s: State, a: Action, t: State, key: Key)
    requires Inv(s) && Step(s, a) == Live(t) && |t.bufs| == |s.bufs| && key != BootKey && key !in Keys(t.bufs)
    ensures Get(t.disk, key) == Get(t.store, key)
  {
    hide Counted, Unique, Owned, Stored, Get;
    GetStore(s, a, t);
    var i := if s.calls[a.c].Idle? then a.i else s.calls[a.c].i;
    KeyCached(t, i);
    if a.Recycle? {
      RecycledIsFree(s, i);
    }
    hide Attached;
    if key in Keys(s.bufs) {
      var j :| 0 <= j < |s.bufs| && s.bufs[j].key == key;
      KeyCached(t, j);
    }
  }

  lemma StepInv(s: State, a: Action, t: State)
    requires Inv(s) && Step(s, a) == Live(t)
    ensures Inv(t)
  {
    hide Counted, Unique, Attached, Owned, Stored, Lagging, Uncached, Step;
    StepSizes(s, a, t);
    StepCounted(s, a, t);
    StepUnique(s, a, t);
    StepAttached(s, a, t);
    StepOwned(s, a, t);
    StepStored(s, a, t);
    StepLagging(s, a, t);
    StepUncached(s, a, t);
  }

  lemma {:induction false} BootRefs(n: nat, i: nat)
    ensures Refs(seq(n, _ => Idle), i) == 0
  {
    if n > 0 {
      BootRefs(n - 1, i);
      assert seq(n, _ => Idle)[..n - 1] == seq(n - 1, _ => Idle);
    }
  }

  lemma BootInv(nbuf: nat, ncalls: nat, disk: map<Key, Block>)
    ensures Inv(Boot(nbuf, ncalls, disk))
  {
    forall i | 0 <= i < nbuf ensures Refs(Boot(nbuf, ncalls, disk).calls, i) == 0 {
      BootRefs(ncalls, i);
    }
  }

  /** Every run of the cache keeps the invariant. */
  lemma {:induction false} RunInv(nbuf: nat, ncalls: nat, disk: map<Key, Block>, acts: seq<Action>)
    ensures Run(Boot(nbuf, ncalls, disk), acts).Live? ==>
              Inv(Run(Boot(nbuf, ncalls, disk), acts).s) && |Run(Boot(nbuf, ncalls, disk), acts).s.bufs| == nbuf
  {
    if acts == [] {
      BootInv(nbuf, ncalls, disk);
    } else {
      RunInv(nbuf, ncalls, disk, acts[..|acts| - 1]);
      var o := Run(Boot(nbuf, ncalls, disk), acts[..|acts| - 1]);
      if o.Live? && Step(o.s, acts[|acts| - 1]).Live? {
        StepSizes(o.s, acts[|acts| - 1], Step(o.s, acts[|acts| - 1]).s);
        StepInv(o.s, acts[|acts| - 1], Step(o.s, acts[|acts| - 1]).s);
      }
    }
  }

  /** In every run, a returned bread shows the bytes last stored in its block,
      whatever was recycled meanwhile, and nobody else holds the buffer. */
  lemma BreadShowsStore(nbuf: nat, ncalls: nat, disk: map<Key, Block>, acts: seq<Action>, s: State, c: nat, d: nat)
    requires Run(Boot(nbuf, ncalls, disk), acts) == Live(s) && c < |s.calls| && d < |s.calls| && s.calls[c].Ready?
    ensures s.calls[c].i < |s.bufs| && s.bufs[s.calls[c].i].key == s.calls[c].key
    ensures s.bufs[s.calls[c].i].data == Get(s.store, s.calls[c].key)
    ensures d != c ==> !Holds(s.calls[d], s.calls[c].i)
  {
    hide Run, Boot, Counted, Unique, Lagging, Uncached, Get;
    RunInv(nbuf, ncalls, disk, acts);
    assert AttachedAt(s, c) && AttachedAt(s, d);
  }

  /** In every run, a valid buffer nobody uses equals its disk block, and a
      logged block's buffer stays cached and valid. */
  lemma UnusedEqualsDisk(nbuf: nat, ncalls: nat, disk: map<Key, Block>, acts: seq<Action>, s: State, i: nat)
    requires Run(Boot(nbuf, ncalls, disk), acts) == Live(s) && i < |s.bufs|
    ensures s.bufs[i].refcnt == 0 && s.bufs[i].valid && s.bufs[i].key != BootKey ==>
              s.bufs[i].data == Get(s.disk, s.bufs[i].key)
    ensures s.bufs[i].pinned ==>
              s.bufs[i].valid && s.bufs[i].refcnt > 0 && s.bufs[i].data == Get(s.store, s.bufs[i].key)
  {
    hide Run, Boot, Unique, Attached, Uncached, Get;
    RunInv(nbuf, ncalls, disk, acts);
    if s.bufs[i].refcnt == 0 {
      RecycledIsFree(s, i);
    }
  }

  predicate AtMostOne(bufs: seq<Buf>, key: Key) {
    forall i, j :: 0 <= i < j < |bufs| ==> !(bufs[i].key == key == bufs[j].key)
  }

  /** No run ever shows two buffers with this key. */
  ghost predicate NeverTwice(boot: State, key: Key) {
    forall acts :: Run(boot, acts).Live? ==> AtMostOne(Run(boot, acts).s.bufs, key)
  }

  /** "One buffer per block" holds in every run iff the block is not the one that
      all buffers claim after binit. */
  lemma OneBufferPerBlock(nbuf: nat, ncalls: nat, disk: map<Key, Block>, key: Key)
    ensures NeverTwice(Boot(nbuf, ncalls, disk), key) <==> key != BootKey || nbuf < 2
  {
    if key == BootKey && nbuf >= 2 {
      BootTwice(nbuf, ncalls, disk);
    } else {
      hide Run, Boot, AtMostOne;
      forall acts | Run(Boot(nbuf, ncalls, disk), acts).Live?
        ensures AtMostOne(Run(Boot(nbuf, ncalls, disk), acts).s.bufs, key)
      {
        Distinct(nbuf, ncalls, disk, acts, key);
      }
    }
  }

  lemma BootTwice(nbuf: nat, ncalls: nat, disk: map<Key, Block>)
    requires nbuf >= 2
    ensures !NeverTwice(Boot(nbuf, ncalls, disk), BootKey)
  {
    hide Step;
    var boot := Boot(nbuf, ncalls, disk);
    assert boot.bufs[0].key == BootKey == boot.bufs[1].key;
    assert Run(boot, []) == Live(boot) && !AtMostOne(Run(boot, []).s.bufs, BootKey);
  }

  lemma Distinct(nbuf: nat, ncalls: nat, disk: map<Key, Block>, acts: seq<Action>, key: Key)
    requires Run(Boot(nbuf, ncalls, disk), acts).Live? && (key != BootKey || nbuf < 2)
    ensures AtMostOne(Run(Boot(nbuf, ncalls, disk), acts).s.bufs, key)
  {
    hide Run, Boot, Counted, Attached, Owned, Stored, Lagging, Uncached;
    RunInv(nbuf, ncalls, disk, acts);
  }
}
