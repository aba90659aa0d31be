/** The virtio block driver of kernel/virtio_disk.c against a device that fetches
    submitted chains in order and completes them in any order (sections 2.6 and
    5.2 of the OASIS Virtio 1.1 specification). Driver actions are its critical
    sections under vdisk_lock; a submission is split where the device can first
    see it. */
module VirtioDisk {

  const NUM: nat := 8
  const WRAP: nat := 0x1_0000
  const F_NEXT: nat := 1
  const F_WRITE: nat := 2
  const BSIZE: nat := 1024

  /** What a descriptor can point at. */
  datatype Addr = Null | Ops(i: nat) | Data(b: nat) | Status(i: nat)

  datatype Desc = Desc(addr: Addr, len: nat, flags: nat, next: nat)

  datatype Op = Op(kind: nat, reserved: nat, sector: nat)

  /** `b` is the buffer, or -1 for null. */
  datatype Info = Info(b: int, status: nat)

  /** How far a request has come; `status` is what the device answered. */
  datatype Phase = Building | Queued(k: nat) | Taken | Used(k: nat, status: nat) | Done

  /** One call of virtio_disk_rw: its buffer and, beside its head descriptor, the
      other two. */
  datatype Call = Call(b: nat, write: bool, sector: nat, i1: nat, i2: nat)

  datatype Req = Req(call: Call, phase: Phase)

  /** The queue in memory, the driver's and the device's own fields, and the
      history: the calls in progress and unbounded counts of entries made
      available, fetched, used and seen. */
  datatype State = State(
    free: seq<bool>, desc: seq<Desc>, ops: seq<Op>, info: seq<Info>,
    avail: seq<nat>, availIdx: nat, used: seq<nat>, usedIdx: nat,
    seenIdx: nat, busy: set<nat>, building: int,
    devIdx: nat, pending: set<nat>,
    reqs: map<nat, Req>, done: set<nat>, nAvail: nat, nTaken: nat, nUsed: nat, nSeen: nat)

  datatype Outcome = Live(s: State) | Panic | Stuck

  datatype Action =
    | Submit(b: nat, write: bool, blockno: nat)  // virtio_disk_rw up to the avail entry
    | Publish                                    // avail->idx += 1, notify
    | Intr                                       // one round of virtio_disk_intr
    | Finish(h: nat)                             // virtio_disk_rw after b->disk == 0
    | Fetch                                      // the device takes the next entry
    | Complete(h: nat, status: nat)              // the device finishes a fetched chain

  const ZERO: Desc := Desc(Null, 0, 0, 0)

  // ----- descriptors -----

  /** alloc_desc's choice from entry `i` on, or -1. */
  function FirstFree(free: seq<bool>, i: nat): (r: int)
    requires i <= |free|
    ensures r == -1 || (i <= r < |free| && free[r])
    ensures r == -1 <==> forall j :: i <= j < |free| ==> !free[j]
    decreases |free| - i
  {
    if i == |free| then -1 else if free[i] then i else FirstFree(free, i + 1)
  }

  function Count(free: seq<bool>): (n: nat) {
    if free == [] then 0 else Count(free[..|free| - 1]) + if free[|free| - 1] then 1 else 0
  }

  lemma {:induction false} CountSet(free: seq<bool>, i: nat, v: bool)
    requires i < |free| && free[i] != v
    ensures Count(free[i := v]) == Count(free) + if v then 1 else -1
  {
    var n := |free| - 1;
    if i == n {
      assert free[i := v][..n] == free[..n];
    } else {
      assert free[i := v][..n] == free[..n][i := v];
      CountSet(free[..n], i, v);
    }
  }

  lemma {:induction false} CountMax(free: seq<bool>)
    ensures Count(free) <= |free|
  {
    if free != [] { CountMax(free[..|free| - 1]); }
  }

  datatype Freed = Chain(free: seq<bool>, desc: seq<Desc>) | Bad

  /** free_chain: walks the chain from `i`, freeing each descriptor; `Bad` where
      free_desc would panic. */
  function FreeChain(free: seq<bool>, desc: seq<Desc>, i: nat): (r: Freed)
    requires |free| == |desc| == NUM
    decreases NUM - Count(free)
  {
    if i >= NUM || free[i] then Bad
    else
      CountSet(free, i, true);
      CountMax(free[i := true]);
      var free', desc' := free[i := true], desc[i := ZERO];
      if desc[i].flags % 2 == 1 then FreeChain(free', desc', desc[i].next) else Chain(free', desc')
  }

  // ----- the device's view of a chain -----

  /** The request a device reads from the chain at `h`. */
  datatype Seen = Seen(op: Op, data: Addr, toDevice: bool, status: Addr)

  function ReadChain(desc: seq<Desc>, ops: seq<Op>, h: nat): (r: Seen)
    requires |desc| == |ops| == NUM
  {
    var d0 := if h < NUM then desc[h] else ZERO;
    var d1 := if d0.next < NUM then desc[d0.next] else ZERO;
    var d2 := if d1.next < NUM then desc[d1.next] else ZERO;
    var op := if d0.addr.Ops? && d0.addr.i < NUM then ops[d0.addr.i] else Op(0, 0, 0);
    Seen(op, d1.addr, d1.flags / 2 % 2 == 0, d2.addr)
  }

  // ----- steps -----

  predicate Wf(s: State) {
    |s.free| == |s.desc| == |s.ops| == |s.info| == |s.avail| == |s.used| == NUM
  }

  function Inc(i: nat): (j: nat) { (i + 1) % WRAP }

  /** The ring entry of an index. */
  function Slot(k: nat): (i: nat)
    ensures i < NUM
  {
    k % NUM
  }

  function Step(s: State, a: Action): (o: Outcome) {
    if !Wf(s) then Stuck
    else
      match a
      case Submit(b, write, blockno) => SubmitStep(s, b, write, blockno)
      case Publish => if s.building in s.reqs then Live(Published(s)) else Stuck
      case Intr => if s.building < 0 && s.seenIdx != s.usedIdx then IntrStep(s) else Stuck
      case Finish(h) =>
        if s.building < 0 && h in s.reqs && s.reqs[h].call.b !in s.busy then FinishStep(s, h) else Stuck
      case Fetch => if s.devIdx != s.availIdx then Live(Fetched(s, s.avail[Slot(s.devIdx)])) else Stuck
      case Complete(h, status) => if h in s.pending then Live(Completed(s, h, status)) else Stuck
  }

  /** Request `h`, if it is one, moves on. */
  function InPhase(reqs: map<nat, Req>, h: int, p: Phase): (r: map<nat, Req>) {
    if h in reqs then reqs[h := Req(reqs[h].call, p)] else reqs
  }

  function Published(s: State): (t: State) {
    s.(availIdx := Inc(s.availIdx), building := -1, nAvail := s.nAvail + 1,
       reqs := InPhase(s.reqs, s.building, Queued(s.nAvail)))
  }

  function Fetched(s: State, h: nat): (t: State) {
    s.(devIdx := Inc(s.devIdx), pending := s.pending + {h}, nTaken := s.nTaken + 1, reqs := InPhase(s.reqs, h, Taken))
  }

  /** The device writes the status byte through the chain and adds a used entry. */
  function Completed(s: State, h: nat, status: nat): (t: State)
    requires Wf(s)
  {
    var st := ReadChain(s.desc, s.ops, h).status;
    s.(info := if st.Status? && st.i < NUM then s.info[st.i := s.info[st.i].(status := status)] else s.info,
       used := s.used[Slot(s.usedIdx) := h], usedIdx := Inc(s.usedIdx),
       pending := s.pending - {h}, nUsed := s.nUsed + 1, reqs := InPhase(s.reqs, h, Used(s.nUsed, status)))
  }

  function Acked(s: State, id: nat): (t: State)
    requires Wf(s) && id < NUM
  {
    s.(busy := s.busy - {if s.info[id].b >= 0 then s.info[id].b else 0}, seenIdx := Inc(s.seenIdx), nSeen := s.nSeen + 1,
       done := s.done + {id}, reqs := InPhase(s.reqs, id, Done))
  }

  /** The three descriptors alloc3_desc takes, or -1. */
  function Alloc3(free: seq<bool>): (r: (int, int, int))
    requires |free| == NUM
    ensures r.0 >= 0 ==> 0 <= r.0 < NUM && 0 <= r.1 < NUM && 0 <= r.2 < NUM
  {
    var i0 := FirstFree(free, 0);
    if i0 < 0 then (-1, -1, -1)
    else
      var i1 := FirstFree(free[i0 := false], 0);
      if i1 < 0 then (-1, -1, -1)
      else
        var i2 := FirstFree(free[i0 := false][i1 := false], 0);
        if i2 < 0 then (-1, -1, -1) else (i0, i1, i2)
  }

  /** The caller holds the buffer's sleep-lock, so it has no other request. */
  function SubmitStep(s: State, b: nat, write: bool, blockno: nat): (o: Outcome)
    requires Wf(s)
  {
    var t := Alloc3(s.free);
    if s.building >= 0 || b in s.busy || exists h :: h in s.reqs && s.reqs[h].call.b == b then Stuck
    else if t.0 < 0 then Live(s)
    else Live(Submitted(s, Call(b, write, blockno * (BSIZE / 512), t.1, t.2), t.0))
  }

  function Submitted(s: State, c: Call, h: nat): (t: State)
    requires Wf(s) && h < NUM && c.i1 < NUM && c.i2 < NUM
  {
    s.(free := s.free[h := false][c.i1 := false][c.i2 := false],
       ops := s.ops[h := Op(if c.write then 1 else 0, 0, c.sector)],
       desc := s.desc[h := Desc(Ops(h), 16, F_NEXT, c.i1)]
                     [c.i1 := Desc(Data(c.b), BSIZE, (if c.write then 0 else F_WRITE) + F_NEXT, c.i2)]
                     [c.i2 := Desc(Status(h), 1, F_WRITE, 0)],
       info := s.info[h := Info(c.b, 0xff)],
       busy := s.busy + {c.b}, avail := s.avail[Slot(s.availIdx) := h],
       building := h, reqs := s.reqs[h := Req(c, Building)])
  }

  function IntrStep(s: State): (o: Outcome)
    requires Wf(s)
  {
    var id := s.used[Slot(s.seenIdx)];
    if id >= NUM || s.info[id].status != 0 || s.info[id].b < 0 then Panic else Live(Acked(s, id))
  }

  function FinishStep(s: State, h: nat): (o: Outcome)
    requires Wf(s)
  {
    if h >= NUM then Panic
    else
      match FreeChain(s.free, s.desc, h)
      case Chain(free, desc) =>
        Live(Finished(s, h, free, desc))
      case Bad => Panic
  }

  function Finished(s: State, h: nat, free: seq<bool>, desc: seq<Desc>): (t: State)
    requires Wf(s) && h < NUM
  {
    s.(free := free, desc := desc, info := s.info[h := s.info[h].(b := -1)], reqs := s.reqs - {h}, done := s.done - {h})
  }

  function Trace(s: State, acts: seq<Action>): (o: Outcome) {
    if acts == [] then Live(s)
    else
      match Trace(s, acts[..|acts| - 1])
      case Live(t) => Step(t, acts[|acts| - 1])
      case Panic => Panic
      case Stuck => Stuck
  }

  /** virtio_disk_init */
  function Init(): (s: State) {
    State(seq(NUM, _ => true), seq(NUM, _ => ZERO), seq(NUM, _ => Op(0, 0, 0)), seq(NUM, _ => Info(-1, 0)),
          seq(NUM, _ => 0), 0, seq(NUM, _ => 0), 0, 0, {}, -1, 0, {}, map[], {}, 0, 0, 0, 0)
  }
}
