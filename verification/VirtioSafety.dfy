/** What every run of the virtio driver and its device keeps. */
module VirtioSafety {
  import opened VirtioDisk
  import VirtioDescriptors

  predicate Mine(h: nat, c: Call, i: nat) { i == h || i == c.i1 || i == c.i2 }

  /** A call's chain is in memory as the driver wrote it. */
  predicate ChainOk(s: State, h: nat, c: Call)
    requires Wf(s)
  {
    && h < NUM && c.i1 < NUM && c.i2 < NUM && h != c.i1 && h != c.i2 && c.i1 != c.i2
    && !s.free[h] && !s.free[c.i1] && !s.free[c.i2]
    && s.desc[h] == Desc(Ops(h), 16, F_NEXT, c.i1)
    && s.desc[c.i1] == Desc(Data(c.b), BSIZE, (if c.write then 0 else F_WRITE) + F_NEXT, c.i2)
    && s.desc[c.i2] == Desc(Status(h), 1, F_WRITE, 0)
    && s.ops[h] == Op(if c.write then 1 else 0, 0, c.sector)
    && s.info[h].b == c.b
  }

  /** Where a request stands, in terms of the rings and both sides' fields. */
  predicate PhaseOk(s: State, h: nat, r: Req)
    requires Wf(s)
  {
    && h < NUM
    && (r.call.b in s.busy <==> !r.phase.Done?)
    && (h in s.pending <==> r.phase.Taken?)
    && (h in s.done <==> r.phase.Done?)
    && (s.building == h <==> r.phase.Building?)
    && (r.phase.Used? ==> s.info[h].status == r.phase.status)
    && (r.phase.Queued? ==> s.nTaken <= r.phase.k < s.nAvail && s.avail[Slot(r.phase.k)] == h)
    && (r.phase.Used? ==> s.nSeen <= r.phase.k < s.nUsed && s.used[Slot(r.phase.k)] == h)
    && (r.phase.Building? ==> s.avail[Slot(s.nAvail)] == h)
  }

  predicate ReqOk(s: State, h: nat)
    requires Wf(s) && h in s.reqs
  {
    ChainOk(s, h, s.reqs[h].call) && PhaseOk(s, h, s.reqs[h])
  }

  /** Different requests have different buffers and disjoint chains. */
  predicate Disjoint(h: nat, c: Call, g: nat, d: Call) {
    c.b != d.b && !Mine(h, c, g) && !Mine(h, c, d.i1) && !Mine(h, c, d.i2)
  }

  predicate QueuedOk(s: State, k: nat)
    requires Wf(s)
  {
    s.nTaken <= k < s.nAvail ==> s.avail[Slot(k)] in s.reqs && s.reqs[s.avail[Slot(k)]].phase == Queued(k)
  }

  predicate UsedAs(p: Phase, k: nat) { p.Used? && p.k == k }

  predicate UsedOk(s: State, k: nat)
    requires Wf(s)
  {
    s.nSeen <= k < s.nUsed ==> s.used[Slot(k)] in s.reqs && UsedAs(s.reqs[s.used[Slot(k)]].phase, k)
  }

  predicate Counts(s: State) {
    && s.nSeen <= s.nUsed <= s.nTaken <= s.nAvail && s.nTaken - s.nUsed == |s.pending|
    && s.availIdx == s.nAvail % WRAP && s.devIdx == s.nTaken % WRAP
    && s.usedIdx == s.nUsed % WRAP && s.seenIdx == s.nSeen % WRAP
    && Count(s.free) + 3 * |s.reqs| == NUM
    && |s.reqs| == s.nAvail - s.nSeen + |s.done| + (if s.building >= 0 then 1 else 0)
    && (s.building >= 0 ==> s.building in s.reqs) && s.building >= -1
  }

  ghost predicate Inv(s: State) {
    && Wf(s) && Counts(s)
    && s.pending <= s.reqs.Keys && s.done <= s.reqs.Keys
    && (forall h :: h in s.reqs ==> ReqOk(s, h))
    && (forall h, g :: h in s.reqs && g in s.reqs && h != g ==> Disjoint(h, s.reqs[h].call, g, s.reqs[g].call))
    && (forall k :: QueuedOk(s, k)) && (forall k :: UsedOk(s, k))
    && (forall i :: 0 <= i < NUM && s.free[i] ==> s.desc[i] == ZERO)
  }

  lemma SlotWrap(k: nat)
    ensures Slot(k % WRAP) == Slot(k) && Inc(k % WRAP) == (k + 1) % WRAP
  {
  }

  lemma SlotApart(k: nat, l: nat)
    requires k < l < k + NUM
    ensures Slot(k) != Slot(l)
  {
  }

  /** At most two requests are in progress, so indices never lap. */
  lemma FewRequests(s: State)
    requires Counts(s)
    ensures |s.reqs| <= 2 && s.nAvail - s.nSeen <= 2
    ensures s.devIdx == s.availIdx <==> s.nTaken == s.nAvail
    ensures s.seenIdx == s.usedIdx <==> s.nSeen == s.nUsed
  {
  }

  /** Instances of the invariant. */
  lemma At(s: State, h: nat)
    requires Inv(s) && h in s.reqs
    ensures ReqOk(s, h) && h < NUM
  {
  }

  lemma Pair(s: State, h: nat, g: nat)
    requires Inv(s) && h in s.reqs && g in s.reqs && h != g
    ensures Disjoint(h, s.reqs[h].call, g, s.reqs[g].call)
  {
  }

  lemma Order(s: State)
    requires Inv(s)
    ensures s.nSeen <= s.nUsed <= s.nTaken <= s.nAvail <= s.nSeen + 2
    ensures s.availIdx == s.nAvail % WRAP && s.devIdx == s.nTaken % WRAP
    ensures s.usedIdx == s.nUsed % WRAP && s.seenIdx == s.nSeen % WRAP
    ensures s.devIdx == s.availIdx <==> s.nTaken == s.nAvail
    ensures s.seenIdx == s.usedIdx <==> s.nSeen == s.nUsed
    ensures Slot(s.availIdx) == Slot(s.nAvail) && Slot(s.devIdx) == Slot(s.nTaken)
    ensures Slot(s.usedIdx) == Slot(s.nUsed) && Slot(s.seenIdx) == Slot(s.nSeen)
  {
    hide Slot, Inc;
    FewRequests(s);
    SlotWrap(s.nAvail);
    SlotWrap(s.nTaken);
    SlotWrap(s.nUsed);
    SlotWrap(s.nSeen);
  }

  lemma Rings(s: State, k: nat)
    requires Inv(s)
    ensures QueuedOk(s, k) && UsedOk(s, k)
  {
  }

  /** What the invariant says of two requests and one ring position. */
  predicate Near(s: State, h: nat, g: nat, k: nat) {
    && Wf(s) && h in s.reqs && ReqOk(s, h) && (g in s.reqs ==> ReqOk(s, g))
    && (g in s.reqs && g != h ==> Disjoint(h, s.reqs[h].call, g, s.reqs[g].call))
    && QueuedOk(s, k) && UsedOk(s, k)
    && s.nSeen <= s.nUsed <= s.nTaken <= s.nAvail <= s.nSeen + 2
    && Slot(s.availIdx) == Slot(s.nAvail) && Slot(s.devIdx) == Slot(s.nTaken)
    && Slot(s.usedIdx) == Slot(s.nUsed) && Slot(s.seenIdx) == Slot(s.nSeen)
  }

  lemma NearOf(s: State, h: nat, g: nat, k: nat)
    requires Inv(s) && h in s.reqs
    ensures Near(s, h, g, k)
  {
    hide Slot, ReqOk, QueuedOk, UsedOk, Disjoint, Counts;
    Order(s);
  }

  /** Steps that only move request `h` on to another phase. */
  predicate Moves(s: State, t: State, h: nat) {
    && Wf(s) && Wf(t) && h in s.reqs && h in t.reqs && t.reqs == s.reqs[h := Req(s.reqs[h].call, t.reqs[h].phase)]
    && t.free == s.free && t.desc == s.desc && t.ops == s.ops
    && (forall g :: 0 <= g < NUM ==> t.info[g].b == s.info[g].b && (g != h ==> t.info[g] == s.info[g]))
  }

  lemma MoveChain(s: State, t: State, h: nat, g: nat)
    requires Inv(s) && Moves(s, t, h) && g in s.reqs
    ensures ChainOk(t, g, t.reqs[g].call)
  {
    At(s, g);
    hide Inv, PhaseOk;
  }

  lemma MoveInv(s: State, t: State, h: nat)
    requires Inv(s) && Moves(s, t, h) && Counts(t) && t.pending <= t.reqs.Keys && t.done <= t.reqs.Keys
    requires forall g :: g in s.reqs ==> PhaseOk(t, g, t.reqs[g])
    requires forall k :: QueuedOk(t, k) && UsedOk(t, k)
    ensures Inv(t)
  {
    hide ChainOk, PhaseOk, Counts, QueuedOk, UsedOk, Disjoint;
    forall g | g in t.reqs ensures ReqOk(t, g) { MoveChain(s, t, h, g); }
    forall g, f | g in t.reqs && f in t.reqs && g != f ensures Disjoint(g, t.reqs[g].call, f, t.reqs[f].call) {
      Pair(s, g, f);
    }
  }

  // ----- publishing -----

  lemma PublishAt(s: State, t: State, g: nat, k: nat)
    requires s.building >= 0 && Near(s, s.building, g, k) && Moves(s, t, s.building) && t == Published(s)
    ensures g in s.reqs ==> PhaseOk(t, g, t.reqs[g])
    ensures QueuedOk(t, k) && UsedOk(t, k)
  {
    hide Slot, Inc, ChainOk, Disjoint;
  }

  lemma PublishInv(s: State, t: State)
    requires Inv(s) && s.building in s.reqs && t == Published(s)
    ensures Inv(t)
  {
    hide Slot, ReqOk, QueuedOk, UsedOk, Disjoint, PhaseOk;
    SlotWrap(s.nAvail);
    forall g | g in s.reqs ensures PhaseOk(t, g, t.reqs[g]) {
      NearOf(s, s.building, g, 0);
      PublishAt(s, t, g, 0);
    }
    forall k ensures QueuedOk(t, k) && UsedOk(t, k) {
      NearOf(s, s.building, s.building, k);
      PublishAt(s, t, s.building, k);
    }
    MoveInv(s, t, s.building);
  }

  // ----- the device -----

  lemma FetchAt(s: State, t: State, h: nat, g: nat, k: nat)
    requires Near(s, h, g, k) && Moves(s, t, h) && t == Fetched(s, h) && s.reqs[h].phase == Queued(s.nTaken)
    ensures g in s.reqs ==> PhaseOk(t, g, t.reqs[g])
    ensures QueuedOk(t, k) && UsedOk(t, k)
  {
    hide Slot, Inc, ChainOk, Disjoint;
  }

  lemma FetchInv(s: State, t: State, h: nat)
    requires Inv(s) && s.devIdx != s.availIdx && h == s.avail[Slot(s.devIdx)] && t == Fetched(s, h)
    ensures h in s.reqs && s.reqs[h].phase == Queued(s.nTaken) && Inv(t)
  {
    hide Slot, ReqOk, UsedOk, Disjoint, PhaseOk;
    Order(s);
    Rings(s, s.nTaken);
    SlotWrap(s.nTaken);
    NotPending(s, h);
    forall g | g in s.reqs ensures PhaseOk(t, g, t.reqs[g]) {
      NearOf(s, h, g, 0);
      FetchAt(s, t, h, g, 0);
    }
    forall k ensures QueuedOk(t, k) && UsedOk(t, k) {
      NearOf(s, h, h, k);
      FetchAt(s, t, h, h, k);
    }
    MoveInv(s, t, h);
  }

  lemma NotPending(s: State, h: nat)
    requires Inv(s) && h in s.reqs && s.reqs[h].phase.Queued?
    ensures h !in s.pending
  {
    At(s, h);
  }

  lemma ChainReads(s: State, h: nat, c: Call)
    requires Wf(s) && ChainOk(s, h, c)
    ensures ReadChain(s.desc, s.ops, h) ==
            Seen(Op(if c.write then 1 else 0, 0, c.sector), Data(c.b), c.write, Status(h))
  {
  }

  lemma CompleteAt(s: State, t: State, h: nat, status: nat, g: nat, k: nat)
    requires Near(s, h, g, k) && Moves(s, t, h) && t == Completed(s, h, status) && s.reqs[h].phase.Taken?
    ensures g in s.reqs ==> PhaseOk(t, g, t.reqs[g])
    ensures QueuedOk(t, k) && UsedOk(t, k)
  {
    hide Slot, Inc, ChainOk, Disjoint, ReadChain;
    ChainReads(s, h, s.reqs[h].call);
    if s.nSeen <= k < s.nUsed { SlotApart(k, s.nUsed); }
    if g in s.reqs && s.reqs[g].phase.Used? { SlotApart(s.reqs[g].phase.k, s.nUsed); }
  }

  lemma CompleteInv(s: State, t: State, h: nat, status: nat)
    requires Inv(s) && h in s.pending && t == Completed(s, h, status)
    ensures h in s.reqs && s.reqs[h].phase.Taken? && Inv(t)
  {
    hide Slot, ReqOk, UsedOk, QueuedOk, Disjoint, PhaseOk, ReadChain;
    Order(s);
    SlotWrap(s.nUsed);
    PendingTaken(s, h);
    At(s, h);
    ChainReads(s, h, s.reqs[h].call);
    forall g | g in s.reqs ensures PhaseOk(t, g, t.reqs[g]) {
      NearOf(s, h, g, 0);
      CompleteAt(s, t, h, status, g, 0);
    }
    forall k ensures QueuedOk(t, k) && UsedOk(t, k) {
      NearOf(s, h, h, k);
      CompleteAt(s, t, h, status, h, k);
    }
    MoveInv(s, t, h);
  }

  lemma PendingTaken(s: State, h: nat)
    requires Inv(s) && h in s.pending
    ensures h in s.reqs && s.reqs[h].phase.Taken? && h < NUM && |s.pending| > 0
  {
    At(s, h);
  }

  // ----- the interrupt -----

  lemma IntrAt(s: State, t: State, h: nat, g: nat, k: nat)
    requires h < NUM && Near(s, h, g, k) && Moves(s, t, h) && t == Acked(s, h) && UsedAs(s.reqs[h].phase, s.nSeen)
    ensures g in s.reqs ==> PhaseOk(t, g, t.reqs[g])
    ensures QueuedOk(t, k) && UsedOk(t, k)
  {
    hide Slot, Inc;
  }

  /** The interrupt handler finds the entry's own request. */
  lemma IntrFinds(s: State, h: nat)
    requires Inv(s) && s.seenIdx != s.usedIdx && h == s.used[Slot(s.seenIdx)]
    ensures h in s.reqs && UsedAs(s.reqs[h].phase, s.nSeen) && h < NUM
    ensures s.info[h].status == s.reqs[h].phase.status && s.info[h].b == s.reqs[h].call.b
  {
    hide Slot, QueuedOk, Disjoint, Counts;
    Order(s);
    Rings(s, s.nSeen);
    At(s, h);
  }

  lemma IntrInv(s: State, t: State, h: nat)
    requires Inv(s) && s.seenIdx != s.usedIdx && h == s.used[Slot(s.seenIdx)] && h < NUM && t == Acked(s, h)
    ensures Inv(t)
  {
    hide Slot, UsedOk, QueuedOk, Disjoint, PhaseOk, ChainOk, ReqOk;
    Order(s);
    SlotWrap(s.nSeen);
    IntrFinds(s, h);
    NotDone(s, h);
    forall g | g in s.reqs ensures PhaseOk(t, g, t.reqs[g]) {
      NearOf(s, h, g, 0);
      IntrAt(s, t, h, g, 0);
    }
    forall k ensures QueuedOk(t, k) && UsedOk(t, k) {
      NearOf(s, h, h, k);
      IntrAt(s, t, h, h, k);
    }
    MoveInv(s, t, h);
  }

  lemma NotDone(s: State, h: nat)
    requires Inv(s) && h in s.reqs && s.reqs[h].phase.Used?
    ensures h !in s.done
  {
    At(s, h);
  }

  // ----- submitting -----

  lemma Alloc3Free(free: seq<bool>, i: nat, j: nat, k: nat)
    requires |free| == NUM && Alloc3(free) == (i, j, k)
    ensures i != j && i != k && j != k && i < NUM && j < NUM && k < NUM && free[i] && free[j] && free[k]
    ensures Count(free[i := false][j := false][k := false]) == Count(free) - 3
  {
    hide Count;
    CountSet(free, i, false);
    CountSet(free[i := false], j, false);
    CountSet(free[i := false][j := false], k, false);
  }

  lemma SubmitNew(s: State, t: State, c: Call, h: nat)
    requires Inv(s) && s.building < 0 && c.b !in s.busy && Alloc3(s.free) == (h, c.i1, c.i2)
    requires h < NUM && c.i1 < NUM && c.i2 < NUM && t == Submitted(s, c, h)
    ensures h !in s.reqs && h !in s.pending && h !in s.done && ReqOk(t, h)
  {
    hide Slot, Count, QueuedOk, UsedOk, Disjoint;
    Alloc3Free(s.free, h, c.i1, c.i2);
    Order(s);
    hide Alloc3, Counts, FirstFree;
    if h in s.reqs { At(s, h); }
  }

  /** What submission leaves of an older request. */
  lemma SubmitOld(s: State, t: State, c: Call, h: nat, g: nat, k: nat)
    requires Near(s, g, g, k) && s.building < 0 && c.b !in s.busy && c.b != s.reqs[g].call.b
    requires h < NUM && c.i1 < NUM && c.i2 < NUM && h != c.i1 && h != c.i2 && c.i1 != c.i2
    requires s.free[h] && s.free[c.i1] && s.free[c.i2] && t == Submitted(s, c, h)
    ensures g in t.reqs && t.reqs[g] == s.reqs[g] && ReqOk(t, g)
    ensures Disjoint(h, c, g, s.reqs[g].call) && Disjoint(g, s.reqs[g].call, h, c)
  {
    hide Slot, QueuedOk, UsedOk;
    if s.reqs[g].phase.Queued? { SlotApart(s.reqs[g].phase.k, s.nAvail); }
  }

  lemma SubmitRings(s: State, t: State, c: Call, h: nat, k: nat)
    requires Inv(s) && h < NUM && c.i1 < NUM && c.i2 < NUM && t == Submitted(s, c, h) && h !in s.reqs
    ensures QueuedOk(t, k) && UsedOk(t, k)
  {
    hide Slot, Counts, ReqOk, Disjoint;
    Order(s);
    Rings(s, k);
    if s.nTaken <= k < s.nAvail { SlotApart(k, s.nAvail); }
    hide Inv;
  }

  lemma SubmitInv(s: State, t: State, c: Call, h: nat)
    requires Inv(s) && s.building < 0 && c.b !in s.busy && Alloc3(s.free) == (h, c.i1, c.i2)
    requires forall g :: g in s.reqs ==> s.reqs[g].call.b != c.b
    requires h < NUM && c.i1 < NUM && c.i2 < NUM && t == Submitted(s, c, h)
    ensures Inv(t)
  {
    hide Slot, Count, QueuedOk, UsedOk, Disjoint, ReqOk, Alloc3, FirstFree;
    Alloc3Free(s.free, h, c.i1, c.i2);
    SubmitNew(s, t, c, h);
    forall g | g in t.reqs && g != h
      ensures t.reqs[g] == s.reqs[g] && ReqOk(t, g) && Disjoint(h, c, g, s.reqs[g].call) && Disjoint(g, s.reqs[g].call, h, c)
    {
      NearOf(s, g, g, 0);
      SubmitOld(s, t, c, h, g, 0);
    }
    forall k ensures QueuedOk(t, k) && UsedOk(t, k) { SubmitRings(s, t, c, h, k); }
    forall g, f | g in t.reqs && f in t.reqs && g != f ensures Disjoint(g, t.reqs[g].call, f, t.reqs[f].call) {
      if g != h && f != h { Pair(s, g, f); }
    }
  }

  // ----- finishing -----

  /** free_chain frees exactly the three descriptors of the call. */
  lemma ChainFreed(s: State, h: nat, c: Call)
    requires Wf(s) && ChainOk(s, h, c)
    ensures FreeChain(s.free, s.desc, h) ==
            Chain(s.free[h := true][c.i1 := true][c.i2 := true], s.desc[h := ZERO][c.i1 := ZERO][c.i2 := ZERO])
    ensures Count(s.free[h := true][c.i1 := true][c.i2 := true]) == Count(s.free) + 3
  {
    hide Count;
    CountSet(s.free, h, true);
    CountSet(s.free[h := true], c.i1, true);
    CountSet(s.free[h := true][c.i1 := true], c.i2, true);
    var f1, d1 := s.free[h := true], s.desc[h := ZERO];
    var f2, d2 := f1[c.i1 := true], d1[c.i1 := ZERO];
    assert FreeChain(f2, d2, c.i2) == Chain(f2[c.i2 := true], d2[c.i2 := ZERO]);
    assert FreeChain(f1, d1, c.i1) == FreeChain(f2, d2, c.i2);
  }

  lemma FinishOther(s: State, t: State, c: Call, h: nat, g: nat, k: nat)
    requires Near(s, h, g, k) && g in s.reqs && g != h && c == s.reqs[h].call && h < NUM && c.i1 < NUM && c.i2 < NUM
    requires t == Finished(s, h, s.free[h := true][c.i1 := true][c.i2 := true], s.desc[h := ZERO][c.i1 := ZERO][c.i2 := ZERO])
    ensures g in t.reqs && t.reqs[g] == s.reqs[g] && ReqOk(t, g)
  {
    hide Slot, QueuedOk, UsedOk;
  }

  lemma FinishRings(s: State, t: State, h: nat, free: seq<bool>, desc: seq<Desc>, k: nat)
    requires Inv(s) && h in s.reqs && s.reqs[h].phase.Done? && h < NUM && t == Finished(s, h, free, desc) && Wf(t)
    ensures QueuedOk(t, k) && UsedOk(t, k)
  {
    hide Slot, Counts, ReqOk, Disjoint;
    Rings(s, k);
    hide Inv;
  }

  /** A caller that sees b->disk == 0 finds its own request done. */
  lemma SeesDone(s: State, h: nat)
    requires Inv(s) && s.building < 0 && h in s.reqs && s.reqs[h].call.b !in s.busy
    ensures s.reqs[h].phase.Done? && h in s.done && h !in s.pending && h < NUM && ChainOk(s, h, s.reqs[h].call)
  {
    At(s, h);
  }

  lemma FinishInv(s: State, t: State, h: nat)
    requires Inv(s) && s.building < 0 && h in s.reqs && s.reqs[h].call.b !in s.busy
    requires h < NUM && FreeChain(s.free, s.desc, h).Chain?
    requires t == Finished(s, h, FreeChain(s.free, s.desc, h).free, FreeChain(s.free, s.desc, h).desc)
    ensures Inv(t)
  {
    hide Slot, Count, QueuedOk, UsedOk, Disjoint, ReqOk, FreeChain, Mine;
    SeesDone(s, h);
    var c := s.reqs[h].call;
    ChainFreed(s, h, c);
    assert t.reqs.Keys == s.reqs.Keys - {h};
    forall g | g in t.reqs ensures ReqOk(t, g) {
      NearOf(s, h, g, 0);
      FinishOther(s, t, c, h, g, 0);
    }
    forall k ensures QueuedOk(t, k) && UsedOk(t, k) {
      FinishRings(s, t, h, t.free, t.desc, k);
    }
    forall g, f | g in t.reqs && f in t.reqs && g != f ensures Disjoint(g, t.reqs[g].call, f, t.reqs[f].call) {
      Pair(s, g, f);
    }
  }

  // ----- whole runs -----

  /** The interrupt handler reaches a request that the device did not carry out. */
  predicate Fails(s: State, a: Action) {
    && a.Intr? && Wf(s) && s.building < 0 && s.seenIdx != s.usedIdx
    && var h := s.used[Slot(s.seenIdx)];
    h in s.reqs && s.reqs[h].phase.Used? && s.reqs[h].phase.status != 0
  }

  /** No other action panics, and every action keeps the invariant. */
  lemma StepInv(s: State, a: Action)
    requires Inv(s)
    ensures Step(s, a).Panic? <==> Fails(s, a)
    ensures Step(s, a).Live? ==> Inv(Step(s, a).s)
  {
    hide Inv, Submitted, Published, Fetched, Completed, Acked, Finished, FreeChain, Alloc3, Slot;
    match a
    case Submit(b, write, blockno) =>
      SubmitCase(s, b, write, blockno);
    case Publish =>
      if Step(s, a).Live? { PublishInv(s, Published(s)); }
    case Intr =>
      if Step(s, a) != Stuck {
        var h := s.used[Slot(s.seenIdx)];
        IntrFinds(s, h);
        IntrInv(s, Acked(s, h), h);
      }
    case Finish(h) =>
      if Step(s, a) != Stuck {
        SeesDone(s, h);
        ChainFreed(s, h, s.reqs[h].call);
        FinishInv(s, Finished(s, h, FreeChain(s.free, s.desc, h).free, FreeChain(s.free, s.desc, h).desc), h);
      }
    case Fetch =>
      if Step(s, a).Live? { FetchInv(s, Fetched(s, s.avail[Slot(s.devIdx)]), s.avail[Slot(s.devIdx)]); }
    case Complete(h, status) =>
      if Step(s, a).Live? { CompleteInv(s, Completed(s, h, status), h, status); }
  }

  lemma SubmitCase(s: State, b: nat, write: bool, blockno: nat)
    requires Inv(s)
    ensures !SubmitStep(s, b, write, blockno).Panic?
    ensures SubmitStep(s, b, write, blockno).Live? ==> Inv(SubmitStep(s, b, write, blockno).s)
  {
    hide Submitted, Alloc3, Slot, ReqOk, Counts, QueuedOk, UsedOk, Disjoint;
    var i := Alloc3(s.free);
    if SubmitStep(s, b, write, blockno).Live? && i.0 >= 0 {
      var c := Call(b, write, blockno * (BSIZE / 512), i.1, i.2);
      SubmitInv(s, Submitted(s, c, i.0), c, i.0);
    }
  }

  lemma InitFacts(s: State, n: nat)
    requires s == Init() && n == NUM
    ensures Wf(s) && s.free == seq(n, _ => true) && forall i :: 0 <= i < NUM ==> s.desc[i] == ZERO
  {
  }

  lemma EmptyInv(s: State)
    requires Wf(s) && Count(s.free) == NUM && s.reqs == map[] && s.pending == {} && s.done == {} && s.building == -1
    requires s.nAvail == s.nTaken == s.nUsed == s.nSeen == s.availIdx == s.devIdx == s.usedIdx == s.seenIdx == 0
    requires forall i :: 0 <= i < NUM ==> s.desc[i] == ZERO
    ensures Inv(s)
  {
    hide Count, Slot;
  }

  lemma InitInv()
    ensures Inv(Init())
  {
    hide Inv, Count, Wf;
    InitFacts(Init(), NUM);
    AllFree(NUM);
    EmptyInv(Init());
  }

  lemma {:induction false} AllFree(n: nat)
    ensures Count(seq(n, _ => true)) == n
  {
    if n > 0 {
      var s := seq(n, _ => true);
      assert s[..n - 1] == seq(n - 1, _ => true);
      AllFree(n - 1);
    }
  }

  lemma {:induction false} RunInv(acts: seq<Action>)
    ensures Trace(Init(), acts).Live? ==> Inv(Trace(Init(), acts).s)
  {
    hide Inv, Step, Init, Fails;
    if acts == [] {
      InitInv();
    } else {
      RunInv(acts[..|acts| - 1]);
      if Trace(Init(), acts[..|acts| - 1]).Live? {
        StepInv(Trace(Init(), acts[..|acts| - 1]).s, acts[|acts| - 1]);
      }
    }
  }

  /** Action k is an interrupt that reaches a failed request. */
  predicate FailsAt(acts: seq<Action>, k: nat) {
    k < |acts| && Trace(Init(), acts[..k]).Live? && Fails(Trace(Init(), acts[..k]).s, acts[k])
  }

  lemma {:induction false} FailsThere(acts: seq<Action>) returns (k: nat)
    requires Trace(Init(), acts).Panic?
    ensures FailsAt(acts, k)
  {
    hide Step, Init, Fails, Inv;
    assert acts != [];
    var n := |acts| - 1;
    if Trace(Init(), acts[..n]).Live? {
      RunInv(acts[..n]);
      StepInv(Trace(Init(), acts[..n]).s, acts[n]);
      k := n;
    } else {
      k := FailsThere(acts[..n]);
      assert acts[..n][..k] == acts[..k];
    }
  }

  lemma {:induction false} PanicStays(acts: seq<Action>, k: nat)
    requires FailsAt(acts, k)
    ensures Trace(Init(), acts).Panic?
  {
    hide Step, Init, Fails, Inv;
    var n := |acts| - 1;
    if k == n {
      RunInv(acts[..n]);
      StepInv(Trace(Init(), acts[..n]).s, acts[n]);
    } else {
      assert acts[..n][..k] == acts[..k];
      PanicStays(acts[..n], k);
    }
  }

  /** Over every interleaving of callers, interrupts and device, the driver panics
      iff an interrupt reaches a request that the device answered with an error. */
  lemma PanicIff(acts: seq<Action>)
    ensures Trace(Init(), acts).Panic? <==> exists k: nat :: FailsAt(acts, k)
  {
    hide FailsAt, Trace, Init;
    if Trace(Init(), acts).Panic? {
      var k := FailsThere(acts);
    }
    if k: nat :| FailsAt(acts, k) { PanicStays(acts, k); }
  }

  /** The device has answered no request that is still to be seen with an error. */
  predicate Calm(s: State) { forall h :: h in s.reqs && s.reqs[h].phase.Used? ==> s.reqs[h].phase.status == 0 }

  lemma StepCalm(s: State, a: Action, t: State)
    requires Calm(s) && Step(s, a) == Live(t) && (a.Complete? ==> a.status == 0)
    ensures Calm(t)
  {
    hide Alloc3, FreeChain, ReadChain, Slot, Inc;
  }

  /** A device that carries out every request never makes the driver panic. */
  lemma {:induction false} RunSafe(acts: seq<Action>)
    requires forall k :: 0 <= k < |acts| && acts[k].Complete? ==> acts[k].status == 0
    ensures !Trace(Init(), acts).Panic?
    ensures Trace(Init(), acts).Live? ==> Inv(Trace(Init(), acts).s) && Calm(Trace(Init(), acts).s)
  {
    hide Inv, Step, Init, Calm;
    if acts == [] {
      InitInv();
      assert Calm(Init()) by { InitCalm(); }
    } else {
      var n := |acts| - 1;
      RunSafe(acts[..n]);
      if Trace(Init(), acts[..n]).Live? {
        var s := Trace(Init(), acts[..n]).s;
        StepInv(s, acts[n]);
        CalmStep(s, acts[n]);
        if Step(s, acts[n]).Live? { StepCalm(s, acts[n], Step(s, acts[n]).s); }
      }
    }
  }

  lemma CalmStep(s: State, a: Action)
    requires Calm(s)
    ensures !Fails(s, a)
  {
    hide Slot, Wf;
  }

  lemma InitCalm()
    ensures Calm(Init())
  {}

  // ----- the promises -----

  /** Free descriptors and three per unfinished request always make NUM; chains
      and buffers of different requests are disjoint. */
  lemma Conserved(acts: seq<Action>, s: State)
    requires Trace(Init(), acts) == Live(s)
    ensures Count(s.free) + 3 * |s.reqs| == NUM
    ensures forall h, g :: h in s.reqs && g in s.reqs && h != g ==> Disjoint(h, s.reqs[h].call, g, s.reqs[g].call)
  {
    hide Trace, Init;
    RunInv(acts);
  }

  /** Request h is in progress after the first k actions. */
  predicate InProgress(acts: seq<Action>, k: nat, h: nat) {
    k <= |acts| && Trace(Init(), acts[..k]).Live? && h in Trace(Init(), acts[..k]).s.reqs
  }

  /** Call `c` is for what action `a` asks of the disk. */
  predicate AskedBy(c: Call, a: Action) {
    a.Submit? && c.b == a.b && c.write == a.write && c.sector * 512 == a.blockno * BSIZE
  }

  /** Action k began request h, which has been in progress since. */
  ghost predicate BegunBy(acts: seq<Action>, k: nat, h: nat, c: Call) {
    && k < |acts| && AskedBy(c, acts[k]) && !InProgress(acts, k, h)
    && forall m :: k < m <= |acts| ==> InProgress(acts, m, h)
  }

  lemma StepOrigin(s: State, a: Action, t: State, h: nat)
    requires Inv(s) && Step(s, a) == Live(t) && h in t.reqs
    ensures (h in s.reqs && t.reqs[h].call == s.reqs[h].call) || (h !in s.reqs && AskedBy(t.reqs[h].call, a))
  {
    hide Inv, Alloc3, FreeChain, ReadChain, Slot, Inc;
    if a.Submit? && Alloc3(s.free).0 >= 0 {
      var i := Alloc3(s.free);
      Alloc3Free(s.free, i.0, i.1, i.2);
      if i.0 in s.reqs { At(s, i.0); }
    }
  }

  lemma {:induction false} Origin(acts: seq<Action>, s: State, h: nat) returns (k: nat)
    requires Trace(Init(), acts) == Live(s) && h in s.reqs
    ensures BegunBy(acts, k, h, s.reqs[h].call)
  {
    hide Step, Init, Inv, AskedBy;
    var n := |acts| - 1;
    assert acts[..|acts|] == acts;
    if acts == [] {
      InitEmpty();
      assert false;
    } else {
      var u := Trace(Init(), acts[..n]).s;
      RunInv(acts[..n]);
      StepOrigin(u, acts[n], s, h);
      if h in u.reqs {
        k := Origin(acts[..n], u, h);
        forall m | 0 <= m <= n ensures acts[..n][..m] == acts[..m] {}
        forall m | k < m <= n ensures InProgress(acts, m, h) { assert InProgress(acts[..n], m, h); }
      } else {
        k := n;
      }
    }
  }

  lemma InitEmpty()
    ensures Init().reqs == map[]
  {}

  /** Whatever chain the device holds, it reads there what some call of
      virtio_disk_rw, still waiting, asked for: the direction, the buffer, and the
      sectors of the block. */
  lemma DeviceReads(acts: seq<Action>, s: State, h: nat) returns (k: nat)
    requires Trace(Init(), acts) == Live(s) && h in s.pending
    ensures h in s.reqs && BegunBy(acts, k, h, s.reqs[h].call) && |s.desc| == |s.ops| == NUM
    ensures acts[k].Submit? && acts[k].b in s.busy
    ensures var r := ReadChain(s.desc, s.ops, h);
            && r.op.kind == (if acts[k].write then 1 else 0) && r.toDevice == acts[k].write
            && r.data == Data(acts[k].b) && r.op.sector * 512 == acts[k].blockno * BSIZE && r.status == Status(h)
  {
    hide Trace, Init, ReadChain;
    RunInv(acts);
    PendingTaken(s, h);
    At(s, h);
    ChainReads(s, h, s.reqs[h].call);
    k := Origin(acts, s, h);
  }

  /** A call of virtio_disk_rw begins a request as soon as three descriptors are free,
      and otherwise changes nothing. */
  lemma SubmitsIff(acts: seq<Action>, s: State, a: Action, t: State)
    requires Trace(Init(), acts) == Live(s) && a.Submit? && Step(s, a) == Live(t)
    ensures Count(s.free) < 3 ==> t == s
    ensures Count(s.free) >= 3 ==>
              && a.b in t.busy && Count(t.free) == Count(s.free) - 3
              && exists h :: h !in s.reqs && h in t.reqs && t.reqs.Keys == s.reqs.Keys + {h} && AskedBy(t.reqs[h].call, a)
  {
    hide Trace, Init, Alloc3, Count, Slot, Inv;
    RunInv(acts);
    VirtioDescriptors.Alloc3Count(s.free);
    if Count(s.free) >= 3 {
      var i := Alloc3(s.free);
      Alloc3Free(s.free, i.0, i.1, i.2);
      if i.0 in s.reqs { At(s, i.0); }
      assert i.0 in t.reqs && t.reqs.Keys == s.reqs.Keys + {i.0 as nat} && AskedBy(t.reqs[i.0].call, a);
    }
  }

  /** A call that ends gives its three descriptors back and clears its entry. */
  lemma FinishFrees(acts: seq<Action>, s: State, h: nat, t: State)
    requires Trace(Init(), acts) == Live(s) && Step(s, Finish(h)) == Live(t)
    ensures h in s.reqs && t.reqs == s.reqs - {h} && h < |t.info| && t.info[h].b == -1
    ensures Count(t.free) == Count(s.free) + 3 && t.busy == s.busy
  {
    hide Trace, Init, Count, FreeChain, Inv;
    RunInv(acts);
    At(s, h);
    ChainFreed(s, h, s.reqs[h].call);
  }

  /** An interrupt round clears the buffer of exactly the request whose chain the
      device put in that used entry, and no other. */
  lemma IntrClearsOwn(acts: seq<Action>, s: State, t: State, h: nat)
    requires Trace(Init(), acts) == Live(s) && Step(s, Intr) == Live(t) && |s.used| == NUM && h == s.used[Slot(s.seenIdx)]
    ensures h in s.reqs && s.reqs[h].phase == Used(s.nSeen, 0) && s.reqs[h].call.b in s.busy
    ensures t.busy == s.busy - {s.reqs[h].call.b}
  {
    hide Trace, Init, Slot;
    RunInv(acts);
    hide Counts, QueuedOk, UsedOk, Disjoint;
    IntrFinds(s, h);
    At(s, h);
  }

  /** Neither ring entry about to be written holds an unread entry, whatever the
      16-bit indices have wrapped to. */
  lemma NoOverwrite(acts: seq<Action>, s: State, k: nat)
    requires Trace(Init(), acts) == Live(s)
    ensures s.nTaken <= k < s.nAvail ==> Slot(k) != Slot(s.availIdx)
    ensures s.nSeen <= k < s.nUsed ==> Slot(k) != Slot(s.usedIdx)
    ensures s.availIdx == s.nAvail % WRAP && s.usedIdx == s.nUsed % WRAP
  {
    hide Trace, Init, Slot;
    RunInv(acts);
    Order(s);
    if s.nTaken <= k < s.nAvail { SlotApart(k, s.nAvail); }
    if s.nSeen <= k < s.nUsed { SlotApart(k, s.nUsed); }
  }
}
