/** kernel/pipe.c: one pipe, any number of readers and writers, every interleaving.
    Steps are taken with pi->lock held; sleep gives it up and wakeup reaches every
    sleeper of its channel, as in kernel/proc.c. */
module Pipes {

  const PIPESIZE: nat := 512
  const WRAP: nat := 0x1_0000_0000

  type Byte = x: int | 0 <= x < 256

  /** Where a process stands in pipewrite or piperead. */
  datatype Pc =
    | Idle
    | Writing(i: nat, bytes: seq<Byte>, since: nat) // lock held, at the top of the loop; i was `since` when it was taken
    | WriteDrowsy(i: nat, bytes: seq<Byte>) // lock held, in sleep() but not asleep: a kill here wakes nobody
    | WriteAsleep(i: nat, bytes: seq<Byte>)
    | WriteWoken(i: nat, bytes: seq<Byte>) // wants the lock back
    | Reading(n: nat)                      // lock held, testing for an empty pipe
    | ReadDrowsy(n: nat)
    | ReadAsleep(n: nat)
    | ReadWoken(n: nat)
    | Copying(i: nat, n: nat)              // lock held, in the copy loop

  datatype Proc = Proc(pc: Pc, killed: bool)

  /** The pipe, the holder of its lock or -1, and the history: all bytes ever
      stored and all ever taken out. */
  datatype State = State(
    data: seq<Byte>, nread: nat, nwrite: nat, readopen: bool, writeopen: bool, lock: int, procs: seq<Proc>,
    stored: seq<Byte>, consumed: seq<Byte>)

  datatype Action =
    | Write(p: nat, bytes: seq<Byte>)
    | Read(p: nat, n: nat)
    | Go(p: nat, fault: bool)              // `fault`: copyin or copyout fails
    | Kill(p: nat)
    | CloseWrite(p: nat)
    | CloseRead(p: nat)

  datatype Outcome = Live(s: State) | Stuck

  /** Counters are 32-bit and may wrap. */
  function Inc(n: nat): (m: nat) { (n + 1) % WRAP }

  function Slot(n: nat): (i: nat)
    ensures i < PIPESIZE
  {
    n % PIPESIZE
  }

  predicate IsFull(s: State) { s.nwrite == (s.nread + PIPESIZE) % WRAP }

  function WakeReader(x: Proc): (y: Proc) {
    if x.pc.ReadAsleep? then x.(pc := ReadWoken(x.pc.n)) else x
  }

  function WakeWriter(x: Proc): (y: Proc) {
    if x.pc.WriteAsleep? then x.(pc := WriteWoken(x.pc.i, x.pc.bytes)) else x
  }

  /** wakeup(&pi->nread) */
  function WakeReaders(procs: seq<Proc>): (r: seq<Proc>)
    ensures |r| == |procs|
  {
    seq(|procs|, i requires 0 <= i < |procs| => WakeReader(procs[i]))
  }

  /** wakeup(&pi->nwrite) */
  function WakeWriters(procs: seq<Proc>): (r: seq<Proc>)
    ensures |r| == |procs|
  {
    seq(|procs|, i requires 0 <= i < |procs| => WakeWriter(procs[i]))
  }

  function At(procs: seq<Proc>, p: nat, pc: Pc): (r: seq<Proc>)
    requires p < |procs|
    ensures |r| == |procs|
  {
    procs[p := procs[p].(pc := pc)]
  }

  function Step(s: State, a: Action): (o: Outcome) {
    if a.p >= |s.procs| || |s.data| != PIPESIZE then Stuck
    else
      var x := s.procs[a.p];
      match a
      case Write(p, bytes) =>
        if x.pc.Idle? && s.lock < 0 then Live(s.(lock := p, procs := At(s.procs, p, Writing(0, bytes, 0)))) else Stuck
      case Read(p, n) =>
        if x.pc.Idle? && s.lock < 0 then Live(s.(lock := p, procs := At(s.procs, p, Reading(n)))) else Stuck
      case Kill(p) => Live(s.(procs := s.procs[p := WakeReader(WakeWriter(x)).(killed := true)]))
      case CloseWrite(p) =>
        if x.pc.Idle? && s.lock < 0 && s.writeopen
        then Live(s.(writeopen := false, procs := WakeReaders(s.procs))) else Stuck
      case CloseRead(p) =>
        if x.pc.Idle? && s.lock < 0 && s.readopen
        then Live(s.(readopen := false, procs := WakeWriters(s.procs))) else Stuck
      case Go(p, fault) =>
        match x.pc
        case Writing(i, bytes, since) => WriteStep(s, p, i, bytes, since, fault)
        case Copying(i, n) => CopyStep(s, p, i, n, fault)
        case Reading(n) =>
          if s.nread == s.nwrite && s.writeopen then
            if x.killed then Live(s.(lock := -1, procs := At(s.procs, p, Idle)))
            else Live(s.(procs := At(s.procs, p, ReadDrowsy(n))))
          else Live(s.(procs := At(s.procs, p, Copying(0, n))))
        case WriteDrowsy(i, bytes) => Live(s.(lock := -1, procs := At(s.procs, p, WriteAsleep(i, bytes))))
        case ReadDrowsy(n) => Live(s.(lock := -1, procs := At(s.procs, p, ReadAsleep(n))))
        case WriteWoken(i, bytes) =>
          if s.lock < 0 then Live(s.(lock := p, procs := At(s.procs, p, Writing(i, bytes, i)))) else Stuck
        case ReadWoken(n) =>
          if s.lock < 0 then Live(s.(lock := p, procs := At(s.procs, p, Reading(n)))) else Stuck
        case _ => Stuck
  }

  /** One round of pipewrite's loop, or what follows it. */
  function WriteStep(s: State, p: nat, i: nat, bytes: seq<Byte>, since: nat, fault: bool): (o: Outcome)
    requires p < |s.procs| && |s.data| == PIPESIZE
  {
    if i >= |bytes| then Live(WriteDone(s, p))
    else if !s.readopen || s.procs[p].killed then
      Live(s.(lock := -1, procs := At(s.procs, p, Idle)))
    else if IsFull(s) then
      Live(s.(procs := At(WakeReaders(s.procs), p, WriteDrowsy(i, bytes))))
    else if fault then Live(WriteDone(s, p))
    else
      Live(s.(data := s.data[Slot(s.nwrite) := bytes[i]], nwrite := Inc(s.nwrite),
              procs := At(s.procs, p, Writing(i + 1, bytes, since)), stored := s.stored + [bytes[i]]))
  }

  function WriteDone(s: State, p: nat): (t: State)
    requires p < |s.procs|
  {
    s.(lock := -1, procs := At(WakeReaders(s.procs), p, Idle))
  }

  /** One round of piperead's copy loop, or what follows it. */
  function CopyStep(s: State, p: nat, i: nat, n: nat, fault: bool): (o: Outcome)
    requires p < |s.procs| && |s.data| == PIPESIZE
  {
    if i >= n || s.nread == s.nwrite then
      Live(s.(lock := -1, procs := At(WakeWriters(s.procs), p, Idle)))
    else
      var ch := s.data[Slot(s.nread)];
      var t := s.(nread := Inc(s.nread), consumed := s.consumed + [ch]);
      if fault then Live(t.(lock := -1, procs := At(WakeWriters(s.procs), p, Idle)))
      else Live(t.(procs := At(s.procs, p, Copying(i + 1, n))))
  }

  function Trace(s: State, acts: seq<Action>): (o: Outcome) {
    if acts == [] then Live(s)
    else
      match Trace(s, acts[..|acts| - 1])
      case Live(t) => Step(t, acts[|acts| - 1])
      case Stuck => Stuck
  }

  /** pipealloc, with `n` processes that may use the pipe. */
  function Init(n: nat): (s: State) {
    State(seq(PIPESIZE, _ => 0), 0, 0, true, true, -1, seq(n, _ => Proc(Idle, false)), [], [])
  }

  // ----- the bytes -----

  predicate Bytes(s: State) {
    && |s.data| == PIPESIZE && s.consumed <= s.stored && |s.stored| <= |s.consumed| + PIPESIZE
    && s.nwrite == |s.stored| % WRAP && s.nread == |s.consumed| % WRAP
    && forall k :: |s.consumed| <= k < |s.stored| ==> s.data[Slot(k)] == s.stored[k]
  }

  lemma Wrapped(a: nat, b: nat)
    requires b <= a <= b + PIPESIZE
    ensures a % WRAP == b % WRAP <==> a == b
    ensures a % WRAP == (b % WRAP + PIPESIZE) % WRAP <==> a == b + PIPESIZE
  {
  }

  lemma Difference(a: nat, b: nat)
    requires b <= a <= b + PIPESIZE
    ensures (a % WRAP - b % WRAP) % WRAP == a - b
  {
  }

  lemma SlotWrap(a: nat)
    ensures Slot(a % WRAP) == Slot(a)
  {
  }

  lemma Counters(s: State)
    requires Bytes(s)
    ensures s.nread == s.nwrite <==> |s.consumed| == |s.stored|
    ensures IsFull(s) <==> |s.stored| == |s.consumed| + PIPESIZE
    ensures (s.nwrite - s.nread) % WRAP == |s.stored| - |s.consumed|
    ensures Slot(s.nwrite) == Slot(|s.stored|) && Slot(s.nread) == Slot(|s.consumed|)
  {
    hide Slot;
    Wrapped(|s.stored|, |s.consumed|);
    Difference(|s.stored|, |s.consumed|);
    SlotWrap(|s.stored|);
    SlotWrap(|s.consumed|);
  }

  // ----- locks and sleepers -----

  predicate HoldsLock(pc: Pc) { pc.Writing? || pc.WriteDrowsy? || pc.Reading? || pc.ReadDrowsy? || pc.Copying? }

  predicate LockOk(s: State, p: nat)
    requires p < |s.procs|
  {
    HoldsLock(s.procs[p].pc) <==> s.lock == p
  }

  /** A reader that has taken bytes out will still wake the writers. */
  predicate ReaderActive(s: State) { 0 <= s.lock < |s.procs| && s.procs[s.lock].pc.Copying? }

  /** What a writer stored since it took the lock is still in the pipe. */
  predicate HoldOk(s: State, p: nat)
    requires p < |s.procs|
  {
    s.procs[p].pc.Writing? ==>
      s.procs[p].pc.since <= s.procs[p].pc.i && s.procs[p].pc.i - s.procs[p].pc.since <= |s.stored| - |s.consumed|
  }

  predicate SleepOk(s: State, p: nat)
    requires p < |s.procs|
  {
    && (s.procs[p].pc.WriteAsleep? ==> (|s.stored| == |s.consumed| + PIPESIZE && s.readopen) || ReaderActive(s))
    && (s.procs[p].pc.WriteDrowsy? ==> |s.stored| == |s.consumed| + PIPESIZE && s.readopen)
    && (s.procs[p].pc.ReadAsleep? ==> s.writeopen)
    && (s.procs[p].pc.ReadDrowsy? ==> s.stored == s.consumed && s.writeopen)
  }

  predicate ProcOk(s: State, p: nat)
    requires p < |s.procs|
  {
    LockOk(s, p) && SleepOk(s, p) && HoldOk(s, p)
  }

  predicate Inv(s: State) {
    && Bytes(s) && -1 <= s.lock < |s.procs|
    && (forall p :: 0 <= p < |s.procs| ==> ProcOk(s, p))
  }

  lemma InvAt(s: State, p: nat)
    requires Inv(s) && p < |s.procs|
    ensures ProcOk(s, p)
  {
  }

  lemma StoreBytes(s: State, t: State, b: Byte)
    requires Bytes(s) && |s.stored| < |s.consumed| + PIPESIZE
    requires t.data == s.data[Slot(s.nwrite) := b] && t.nwrite == Inc(s.nwrite)
    requires t.nread == s.nread && t.stored == s.stored + [b] && t.consumed == s.consumed
    ensures Bytes(t)
  {
    Counters(s);
    forall k | |t.consumed| <= k < |t.stored| ensures t.data[Slot(k)] == t.stored[k] {
      if k < |s.stored| { SlotApart(k, |s.stored|); }
    }
    assert t.nwrite == |t.stored| % WRAP by { Bump(|s.stored|); }
  }

  lemma TakeBytes(s: State, t: State)
    requires Bytes(s) && |s.consumed| < |s.stored|
    requires t.data == s.data && t.nread == Inc(s.nread) && t.nwrite == s.nwrite
    requires t.stored == s.stored && t.consumed == s.consumed + [s.data[Slot(s.nread)]]
    ensures Bytes(t)
  {
    Counters(s);
    Bump(|s.consumed|);
  }

  lemma Bump(n: nat)
    ensures Inc(n % WRAP) == (n + 1) % WRAP
  {
  }

  lemma SlotApart(k: nat, n: nat)
    requires k < n < k + PIPESIZE
    ensures Slot(k) != Slot(n)
  {
  }

  lemma WriteBytes(s: State, p: nat, i: nat, bytes: seq<Byte>, since: nat, fault: bool, t: State)
    requires Bytes(s) && p < |s.procs| && WriteStep(s, p, i, bytes, since, fault) == Live(t)
    ensures Bytes(t) && |t.procs| == |s.procs|
  {
    hide WakeReaders, At, Inc, Slot, IsFull, Bytes;
    Counters(s);
    Room(s);
    if t.stored != s.stored { StoreBytes(s, t, bytes[i]); } else { SameBytes(s, t); }
  }

  lemma Room(s: State)
    requires Bytes(s)
    ensures |s.data| == PIPESIZE && |s.consumed| <= |s.stored| <= |s.consumed| + PIPESIZE
  {
  }

  lemma CopyBytes(s: State, p: nat, i: nat, n: nat, fault: bool, t: State)
    requires Bytes(s) && p < |s.procs| && CopyStep(s, p, i, n, fault) == Live(t)
    ensures Bytes(t) && |t.procs| == |s.procs|
  {
    hide WakeWriters, At, Inc, Slot, Bytes;
    Counters(s);
    Room(s);
    if t.consumed != s.consumed { TakeBytes(s, t); } else { SameBytes(s, t); }
  }

  lemma StepBytes(s: State, a: Action, t: State)
    requires Inv(s) && Step(s, a) == Live(t)
    ensures Bytes(t) && |t.procs| == |s.procs|
  {
    hide ProcOk, WakeReaders, WakeWriters, At, Bytes, WriteStep, CopyStep;
    if a.Go? && s.procs[a.p].pc.Writing? {
      WriteBytes(s, a.p, s.procs[a.p].pc.i, s.procs[a.p].pc.bytes, s.procs[a.p].pc.since, a.fault, t);
    } else if a.Go? && s.procs[a.p].pc.Copying? {
      CopyBytes(s, a.p, s.procs[a.p].pc.i, s.procs[a.p].pc.n, a.fault, t);
    } else {
      SameBytes(s, t);
    }
  }

  lemma SameBytes(s: State, t: State)
    requires Bytes(s) && t.data == s.data && t.nread == s.nread && t.nwrite == s.nwrite
    requires t.stored == s.stored && t.consumed == s.consumed
    ensures Bytes(t)
  {
  }

  lemma WriteProcs(s: State, p: nat, i: nat, bytes: seq<Byte>, since: nat, fault: bool, t: State, q: nat)
    requires Bytes(s) && p < |s.procs| && s.procs[p].pc == Writing(i, bytes, since) && WriteStep(s, p, i, bytes, since, fault) == Live(t)
    requires q < |s.procs| && ProcOk(s, p) && ProcOk(s, q) && |t.procs| == |s.procs|
    ensures ProcOk(t, q)
  {
    hide Inc, Slot, IsFull, Bytes;
    Counters(s);
    Prefix(s);
  }

  lemma CopyProcs(s: State, p: nat, i: nat, n: nat, fault: bool, t: State, q: nat)
    requires Bytes(s) && p < |s.procs| && s.procs[p].pc == Copying(i, n) && CopyStep(s, p, i, n, fault) == Live(t)
    requires q < |s.procs| && ProcOk(s, p) && ProcOk(s, q) && |t.procs| == |s.procs|
    ensures ProcOk(t, q)
  {
    hide Inc, Slot, IsFull, Bytes;
    Counters(s);
    Prefix(s);
  }

  lemma RestProcs(s: State, a: Action, t: State, q: nat)
    requires Bytes(s) && Step(s, a) == Live(t) && !(a.Go? && (s.procs[a.p].pc.Writing? || s.procs[a.p].pc.Copying?))
    requires q < |s.procs| && ProcOk(s, a.p) && ProcOk(s, q) && |t.procs| == |s.procs|
    ensures ProcOk(t, q)
  {
    hide Bytes, WriteStep, CopyStep;
    Counters(s);
    Prefix(s);
  }

  lemma StepProcs(s: State, a: Action, t: State, q: nat)
    requires Inv(s) && Step(s, a) == Live(t) && q < |s.procs| && |t.procs| == |s.procs|
    ensures ProcOk(t, q)
  {
    hide Bytes, ProcOk, WriteStep, CopyStep;
    InvAt(s, q);
    InvAt(s, a.p);
    if a.Go? && s.procs[a.p].pc.Writing? {
      WriteProcs(s, a.p, s.procs[a.p].pc.i, s.procs[a.p].pc.bytes, s.procs[a.p].pc.since, a.fault, t, q);
    } else if a.Go? && s.procs[a.p].pc.Copying? {
      CopyProcs(s, a.p, s.procs[a.p].pc.i, s.procs[a.p].pc.n, a.fault, t, q);
    } else {
      RestProcs(s, a, t, q);
    }
  }

  lemma Prefix(s: State)
    requires Bytes(s)
    ensures s.stored == s.consumed <==> |s.stored| == |s.consumed|
  {
  }

  lemma StepLock(s: State, a: Action, t: State)
    requires Inv(s) && Step(s, a) == Live(t) && |t.procs| == |s.procs|
    ensures -1 <= t.lock < |t.procs|
  {
    hide ProcOk, Bytes, Inc, Slot, IsFull;
  }

  lemma StepInv(s: State, a: Action, t: State)
    requires Inv(s) && Step(s, a) == Live(t)
    ensures Inv(t)
  {
    hide Step, ProcOk, Bytes;
    StepBytes(s, a, t);
    StepLock(s, a, t);
    forall q | 0 <= q < |t.procs| ensures ProcOk(t, q) { StepProcs(s, a, t, q); }
  }

  lemma {:induction false} TraceInv(n: nat, acts: seq<Action>)
    ensures Trace(Init(n), acts).Live? ==> Inv(Trace(Init(n), acts).s) && |Trace(Init(n), acts).s.procs| == n
  {
    hide Step, Inv, Init;
    if acts == [] {
      InitInv(n);
    } else if Trace(Init(n), acts).Live? {
      TraceInv(n, acts[..|acts| - 1]);
      StepBytes(Trace(Init(n), acts[..|acts| - 1]).s, acts[|acts| - 1], Trace(Init(n), acts).s);
      StepInv(Trace(Init(n), acts[..|acts| - 1]).s, acts[|acts| - 1], Trace(Init(n), acts).s);
    }
  }

  lemma InitInv(n: nat)
    ensures Inv(Init(n)) && |Init(n).procs| == n
  {
  }

  // ----- the promises -----

  /** First in, first out, within the buffer, across wraparound of the counters. */
  lemma Fifo(n: nat, acts: seq<Action>, s: State)
    requires Trace(Init(n), acts) == Live(s)
    ensures s.consumed <= s.stored && |s.stored| - |s.consumed| <= PIPESIZE
    ensures (s.nwrite - s.nread) % WRAP == |s.stored| - |s.consumed|
  {
    hide Trace, Init;
    TraceInv(n, acts);
    Counters(s);
  }

  /** With the lock free, a sleeping writer means a full pipe someone can read. */
  lemma WriterSleepsOnFull(n: nat, acts: seq<Action>, s: State, p: nat)
    requires Trace(Init(n), acts) == Live(s) && p < |s.procs| && s.lock == -1 && s.procs[p].pc.WriteAsleep?
    ensures IsFull(s) && s.readopen && |s.stored| == |s.consumed| + PIPESIZE
  {
    hide Trace, Init;
    TraceInv(n, acts);
    Counters(s);
    InvAt(s, p);
  }

  // ----- what a call of pipewrite has stored -----

  predicate InWrite(pc: Pc) { pc.Writing? || pc.WriteDrowsy? || pc.WriteAsleep? || pc.WriteWoken? }

  /** What process p asked for in its last call of pipewrite. */
  function Asked(acts: seq<Action>, p: nat): (bytes: seq<Byte>) {
    if acts == [] then []
    else
      var a := acts[|acts| - 1];
      if a.Write? && a.p == p then a.bytes else Asked(acts[..|acts| - 1], p)
  }

  /** Where in the history the bytes of that call went. */
  function Puts(n: nat, acts: seq<Action>, p: nat): (at: seq<nat>)
    requires Trace(Init(n), acts).Live?
  {
    if acts == [] then []
    else
      var a, rest := acts[|acts| - 1], acts[..|acts| - 1];
      var s, t := Trace(Init(n), rest).s, Trace(Init(n), acts).s;
      if a.Write? && a.p == p then []
      else if a.Go? && a.p == p && |t.stored| > |s.stored| then Puts(n, rest, p) + [|s.stored|]
      else Puts(n, rest, p)
  }

  /** The entries of `from` at positions `at`, in order, are `bytes`. */
  predicate Picks(from: seq<Byte>, at: seq<nat>, bytes: seq<Byte>) {
    && |at| == |bytes|
    && (forall k | 0 <= k < |at| :: at[k] < |from| && from[at[k]] == bytes[k])
    && forall k | 0 < k < |at| :: at[k - 1] < at[k]
  }

  /** The pcs of a process before and after a wakeup. */
  predicate Stays(x: Pc, y: Pc) {
    || y == x
    || (x.WriteAsleep? && y == WriteWoken(x.i, x.bytes))
    || (x.ReadAsleep? && y == ReadWoken(x.n))
  }

  lemma WriteRound(s: State, p: nat, i: nat, bytes: seq<Byte>, since: nat, fault: bool, t: State, q: nat)
    requires p < |s.procs| && |s.data| == PIPESIZE && WriteStep(s, p, i, bytes, since, fault) == Live(t) && q < |s.procs|
    ensures |t.procs| == |s.procs| && (p != q ==> Stays(s.procs[q].pc, t.procs[q].pc))
    ensures t.writeopen == s.writeopen && t.readopen == s.readopen
    ensures var y := t.procs[p].pc;
            || (InWrite(y) && y.bytes == bytes && y.i == if |t.stored| > |s.stored| then i + 1 else i)
            || (&& y.Idle? && t.lock == -1 && t.stored == s.stored
                && (i >= |bytes| || fault || s.procs[p].killed || !s.readopen))
  {
    hide Inc, Slot, IsFull;
  }

  lemma CopyRound(s: State, p: nat, i: nat, n: nat, fault: bool, t: State, q: nat)
    requires p < |s.procs| && |s.data| == PIPESIZE && CopyStep(s, p, i, n, fault) == Live(t) && q < |s.procs|
    ensures |t.procs| == |s.procs| && (p != q ==> Stays(s.procs[q].pc, t.procs[q].pc))
    ensures t.writeopen == s.writeopen && t.readopen == s.readopen
    ensures var more := i < n && s.nread != s.nwrite;
            && t.procs[p].pc == (if more && !fault then Copying(i + 1, n) else Idle)
            && |t.consumed| == |s.consumed| + (if more then 1 else 0) && (t.procs[p].pc.Idle? ==> t.lock == -1)
  {
    hide Inc, Slot;
  }

  lemma OthersStay(s: State, a: Action, t: State, q: nat)
    requires Step(s, a) == Live(t) && q < |s.procs| && (q == a.p ==> !a.Go? && (a.Write? || a.Read? ==> !s.procs[q].pc.Idle?))
    ensures |t.procs| == |s.procs| && Stays(s.procs[q].pc, t.procs[q].pc)
  {
    hide WriteStep, CopyStep;
    var pc := s.procs[a.p].pc;
    if a.Go? && pc.Writing? { WriteRound(s, a.p, pc.i, pc.bytes, pc.since, a.fault, t, q); }
    if a.Go? && pc.Copying? { CopyRound(s, a.p, pc.i, pc.n, a.fault, t, q); }
  }

  lemma StoredStep(s: State, a: Action, t: State)
    requires Step(s, a) == Live(t)
    ensures t.stored == s.stored ||
            (a.Go? && s.procs[a.p].pc.Writing? && s.procs[a.p].pc.i < |s.procs[a.p].pc.bytes| &&
             t.stored == s.stored + [s.procs[a.p].pc.bytes[s.procs[a.p].pc.i]])
  {
    hide Inc, Slot, IsFull, At, WakeReaders, WakeWriters;
  }

  /** How one of its own steps moves a call on. */
  lemma OwnMoves(s: State, p: nat, fault: bool, t: State)
    requires p < |s.procs| && Step(s, Go(p, fault)) == Live(t)
    ensures |t.procs| == |s.procs|
    ensures var x, y := s.procs[p].pc, t.procs[p].pc;
            && (InWrite(x) <==> InWrite(y) || (y.Idle? && !x.Reading? && !x.Copying?))
            && (InWrite(x) && InWrite(y) ==> y.bytes == x.bytes && y.i == if |t.stored| > |s.stored| then x.i + 1 else x.i)
            && (InWrite(x) && y.Idle? ==>
                  t.lock == -1 && t.stored == s.stored && (x.i >= |x.bytes| || fault || s.procs[p].killed || !s.readopen))
  {
    hide WriteStep, CopyStep;
    var pc := s.procs[p].pc;
    if pc.Writing? { WriteRound(s, p, pc.i, pc.bytes, pc.since, fault, t, p); }
    if pc.Copying? { CopyRound(s, p, pc.i, pc.n, fault, t, p); }
  }

  /** How one step moves a call of pipewrite on. */
  lemma WriteMoves(s: State, a: Action, t: State, p: nat)
    requires Step(s, a) == Live(t) && p < |s.procs|
    ensures |t.procs| == |s.procs| && s.stored <= t.stored
    ensures InWrite(t.procs[p].pc) && !(a.Write? && a.p == p) ==> InWrite(s.procs[p].pc) && t.procs[p].pc.bytes == s.procs[p].pc.bytes
    ensures InWrite(t.procs[p].pc) && a.Write? && a.p == p ==> t.procs[p].pc == Writing(0, a.bytes, 0)
    ensures var x, y := s.procs[p].pc, t.procs[p].pc;
            InWrite(y) && InWrite(x) && !(a.Write? && a.p == p) ==>
              if a.Go? && a.p == p && |t.stored| > |s.stored|
              then x.i < |x.bytes| && y.i == x.i + 1 && t.stored == s.stored + [x.bytes[x.i]]
              else y.i == x.i
  {
    hide Inc, Slot, IsFull, WriteStep, CopyStep;
    StoredStep(s, a, t);
    if a.p == p && a.Go? {
      OwnMoves(s, p, a.fault, t);
    } else if !(a.p == p && (a.Write? || a.Read?)) {
      OthersStay(s, a, t, p);
    }
  }

  /** What process p has stored in its current call is what it asked for, up to i:
      the first i bytes, in order, each once. */
  lemma {:induction false} WritesInOrder(n: nat, acts: seq<Action>, s: State, p: nat)
    requires Trace(Init(n), acts) == Live(s) && p < |s.procs| && InWrite(s.procs[p].pc)
    ensures s.procs[p].pc.bytes == Asked(acts, p) && s.procs[p].pc.i <= |Asked(acts, p)|
    ensures Picks(s.stored, Puts(n, acts, p), Asked(acts, p)[..s.procs[p].pc.i])
  {
    if acts == [] {
      hide Trace;
      NoneWrites(n, p);
      assert false;
    } else {
      hide Step, Init, InWrite, Inv;
      var a, rest := acts[|acts| - 1], acts[..|acts| - 1];
      var u := Trace(Init(n), rest).s;
      OneMore(n, acts, |acts| - 1);
      assert acts[..|acts|] == acts;
      StepBytes(u, a, s);
      WriteMoves(u, a, s, p);
      if a.Write? && a.p == p {
        assert Asked(acts, p)[..0] == [];
      } else {
        WritesInOrder(n, rest, u, p);
        PicksOn(u, s, Puts(n, rest, p), Asked(acts, p), u.procs[p].pc.i, s.procs[p].pc.i, Puts(n, acts, p));
      }
    }
  }

  lemma NoneWrites(n: nat, p: nat)
    requires p < |Init(n).procs|
    ensures !InWrite(Init(n).procs[p].pc)
  {
  }

  lemma PicksOn(s: State, t: State, at: seq<nat>, bytes: seq<Byte>, i: nat, j: nat, on: seq<nat>)
    requires s.stored <= t.stored && i <= j <= |bytes| && Picks(s.stored, at, bytes[..i])
    requires if j == i then on == at else j == i + 1 && t.stored == s.stored + [bytes[i]] && on == at + [|s.stored|]
    ensures Picks(t.stored, on, bytes[..j])
  {
  }

  /** A call of pipewrite ends with everything stored, at a fault, or because it was
      killed or nobody reads. */
  lemma WriteReturns(s: State, a: Action, t: State, p: nat)
    requires Step(s, a) == Live(t) && p < |s.procs| && InWrite(s.procs[p].pc)
    ensures |t.procs| == |s.procs|
    ensures InWrite(t.procs[p].pc) || t.procs[p].pc.Idle?
    ensures var pc := s.procs[p].pc;
            t.procs[p].pc.Idle? ==>
              && a.Go? && a.p == p && t.lock == -1 && t.stored == s.stored
              && (pc.i >= |pc.bytes| || a.fault || s.procs[p].killed || !s.readopen)
  {
    hide WriteStep, CopyStep;
    if a.p == p && a.Go? { OwnMoves(s, p, a.fault, t); } else { OthersStay(s, a, t, p); }
  }

  /** What the next step of a call of piperead is, once it has the lock. It waits
      exactly on an empty pipe that somebody writes, and gives up waiting when
      killed; else it copies byte by byte what is there, up to what it asked for,
      and returns, as it does at a fault. */
  lemma ReadReturns(n: nat, acts: seq<Action>, s: State, p: nat, fault: bool, t: State)
    requires Trace(Init(n), acts) == Live(s) && Step(s, Go(p, fault)) == Live(t)
    requires p < |s.procs| && (s.procs[p].pc.Reading? || s.procs[p].pc.Copying?)
    ensures |t.procs| == |s.procs| && (t.procs[p].pc.Idle? ==> t.lock == -1)
    ensures s.procs[p].pc.Reading? ==>
              t.procs[p].pc == (if s.stored != s.consumed || !s.writeopen then Copying(0, s.procs[p].pc.n)
                                else if s.procs[p].killed then Idle else ReadDrowsy(s.procs[p].pc.n))
    ensures var x := s.procs[p].pc;
            x.Copying? ==>
              var more := x.i < x.n && s.stored != s.consumed;
              && t.procs[p].pc == (if more && !fault then Copying(x.i + 1, x.n) else Idle)
              && |t.consumed| == |s.consumed| + if more then 1 else 0
  {
    hide Trace, Init, WriteStep, CopyStep, Bytes, ProcOk, IsFull, Slot, WakeReaders, WakeWriters;
    TraceInv(n, acts);
    Counters(s);
    Prefix(s);
    if s.procs[p].pc.Copying? { CopyRound(s, p, s.procs[p].pc.i, s.procs[p].pc.n, fault, t, p); }
  }

  /** Closing an end shuts it for good and leaves nobody asleep waiting for it. */
  lemma CloseWakes(s: State, a: Action, t: State, q: nat)
    requires Step(s, a) == Live(t) && q < |s.procs|
    ensures |t.procs| == |s.procs|
    ensures a.CloseWrite? ==> !t.writeopen && !t.procs[q].pc.ReadAsleep?
    ensures a.CloseRead? ==> !t.readopen && !t.procs[q].pc.WriteAsleep?
    ensures (!s.writeopen ==> !t.writeopen) && (!s.readopen ==> !t.readopen)
  {
    hide WriteStep, CopyStep;
    var pc := s.procs[a.p].pc;
    if a.Go? && pc.Writing? { WriteRound(s, a.p, pc.i, pc.bytes, pc.since, a.fault, t, q); }
    if a.Go? && pc.Copying? { CopyRound(s, a.p, pc.i, pc.n, a.fault, t, q); }
  }

  // ----- readers left asleep -----

  /** Reader q sleeps with the lock free and bytes in the pipe. */
  predicate Stranded(s: State, q: nat) {
    q < |s.procs| && s.lock == -1 && s.procs[q].pc.ReadAsleep? && s.stored != s.consumed
  }

  /** The early return of pipewrite. */
  predicate GivesUp(s: State, a: Action) {
    && a.Go? && a.p < |s.procs| && s.procs[a.p].pc.Writing? && s.procs[a.p].pc.i < |s.procs[a.p].pc.bytes|
    && (!s.readopen || s.procs[a.p].killed)
  }

  /** An early return by a writer that has stored bytes since it took the lock,
      while reader q sleeps. */
  predicate Abandons(s: State, a: Action, q: nat) {
    GivesUp(s, a) && s.procs[a.p].pc.since < s.procs[a.p].pc.i && q < |s.procs| && s.procs[q].pc.ReadAsleep?
  }

  /** The lock's holder is a writer that has stored bytes since it took it. */
  predicate Midway(s: State) {
    0 <= s.lock < |s.procs| && s.procs[s.lock].pc.Writing? && s.procs[s.lock].pc.since < s.procs[s.lock].pc.i
  }

  /** Nobody has failed reader q yet. */
  predicate Served(s: State, q: nat)
    requires q < |s.procs|
  {
    s.procs[q].pc.ReadAsleep? ==> s.stored == s.consumed || Midway(s)
  }

  lemma AbandonStrands(s: State, a: Action, t: State, q: nat)
    requires Inv(s) && Step(s, a) == Live(t) && Abandons(s, a, q)
    ensures Stranded(t, q)
  {
    hide Bytes;
    InvAt(s, a.p);
    InvAt(s, q);
  }

  lemma StepServed(s: State, a: Action, t: State, q: nat)
    requires Inv(s) && Step(s, a) == Live(t) && q < |s.procs| == |t.procs| && Served(s, q) && !Abandons(s, a, q)
    ensures Served(t, q)
  {
    hide Bytes, Inc, Slot, IsFull;
    assert Bytes(s);
    Counters(s);
    Prefix(s);
    InvAt(s, a.p);
    InvAt(s, q);
  }

  // ----- the same over runs -----

  predicate StrandedAt(n: nat, acts: seq<Action>, k: nat, q: nat) {
    k <= |acts| && Trace(Init(n), acts[..k]).Live? && Stranded(Trace(Init(n), acts[..k]).s, q)
  }

  predicate AbandonedAt(n: nat, acts: seq<Action>, k: nat, q: nat) {
    k < |acts| && Trace(Init(n), acts[..k]).Live? && Abandons(Trace(Init(n), acts[..k]).s, acts[k], q)
  }

  /** Process p holds the lock after the first k actions. */
  predicate LockedAt(n: nat, acts: seq<Action>, k: nat, p: nat) {
    k <= |acts| && Trace(Init(n), acts[..k]).Live? && Trace(Init(n), acts[..k]).s.lock == p
  }

  lemma {:induction false} PrefixLive(n: nat, acts: seq<Action>, k: nat)
    requires Trace(Init(n), acts).Live? && k <= |acts|
    ensures Trace(Init(n), acts[..k]).Live?
  {
    hide Step, Init;
    if k < |acts| {
      PrefixLive(n, acts[..|acts| - 1], k);
      assert acts[..|acts| - 1][..k] == acts[..k];
    } else {
      assert acts[..k] == acts;
    }
  }

  lemma OneMore(n: nat, acts: seq<Action>, k: nat)
    requires Trace(Init(n), acts).Live? && k < |acts|
    ensures Trace(Init(n), acts[..k]).Live? && Trace(Init(n), acts[..k + 1]).Live?
    ensures Step(Trace(Init(n), acts[..k]).s, acts[k]) == Trace(Init(n), acts[..k + 1])
    ensures Inv(Trace(Init(n), acts[..k]).s) && Inv(Trace(Init(n), acts[..k + 1]).s)
  {
    hide Step, Init, Inv;
    PrefixLive(n, acts, k);
    PrefixLive(n, acts, k + 1);
    assert acts[..k + 1][..k] == acts[..k];
    TraceInv(n, acts[..k]);
    TraceInv(n, acts[..k + 1]);
  }

  lemma {:induction false} ServedRun(n: nat, acts: seq<Action>, k: nat, q: nat)
    requires Trace(Init(n), acts).Live? && k <= |acts| && q < n && forall j: nat :: !AbandonedAt(n, acts, j, q)
    ensures Trace(Init(n), acts[..k]).Live? && q < |Trace(Init(n), acts[..k]).s.procs| == n
    ensures Served(Trace(Init(n), acts[..k]).s, q)
  {
    if k == 0 {
      hide Step;
    } else {
      hide Trace, Step, Init, Inv, Served;
      OneMore(n, acts, k - 1);
      ServedRun(n, acts, k - 1, q);
      var s, t := Trace(Init(n), acts[..k - 1]).s, Trace(Init(n), acts[..k]).s;
      StepBytes(s, acts[k - 1], t);
      assert !AbandonedAt(n, acts, k - 1, q);
      StepServed(s, acts[k - 1], t, q);
    }
  }

  /** A run leaves reader q asleep over bytes at some time iff at some time a
      writer returns early, having stored bytes since it took the lock, while q
      sleeps. */
  lemma StrandedIff(n: nat, acts: seq<Action>, q: nat)
    requires Trace(Init(n), acts).Live? && q < n
    ensures (exists k: nat :: StrandedAt(n, acts, k, q)) <==> (exists k: nat :: AbandonedAt(n, acts, k, q))
  {
    hide Trace, Step, Init, Inv, Abandons;
    if k: nat :| AbandonedAt(n, acts, k, q) {
      OneMore(n, acts, k);
      AbandonStrands(Trace(Init(n), acts[..k]).s, acts[k], Trace(Init(n), acts[..k + 1]).s, q);
      assert StrandedAt(n, acts, k + 1, q);
    } else if k: nat :| StrandedAt(n, acts, k, q) {
      ServedRun(n, acts, k, q);
      assert false;
    }
  }

  /** With the lock free, a sleeping reader means a pipe someone can write, and an
      empty one unless a writer has returned early on it. */
  lemma ReaderSleepsOnEmpty(n: nat, acts: seq<Action>, s: State, q: nat)
    requires Trace(Init(n), acts) == Live(s) && q < |s.procs| && s.lock == -1 && s.procs[q].pc.ReadAsleep?
    ensures s.writeopen && (s.stored == s.consumed || exists k: nat :: AbandonedAt(n, acts, k, q))
  {
    hide Trace, Step, Init;
    TraceInv(n, acts);
    InvAt(s, q);
    assert acts[..|acts|] == acts;
    if s.stored != s.consumed {
      assert StrandedAt(n, acts, |acts|, q);
      StrandedIff(n, acts, q);
    }
  }

  /** While a writer keeps the lock, the pipe fills by what it stores and no reader
      falls asleep. */
  lemma HoldStep(s: State, a: Action, t: State, p: nat, q: nat)
    requires Inv(s) && Step(s, a) == Live(t) && s.lock == p == t.lock && p < |t.procs| == |s.procs| && t.procs[p].pc.Writing?
    ensures s.procs[p].pc.Writing? && s.procs[p].pc.since == t.procs[p].pc.since && s.procs[p].pc.i <= t.procs[p].pc.i
    ensures |t.stored| - |t.consumed| - t.procs[p].pc.i == |s.stored| - |s.consumed| - s.procs[p].pc.i
    ensures q < |t.procs| && t.procs[q].pc.ReadAsleep? ==> s.procs[q].pc.ReadAsleep?
  {
    hide Bytes, Inc, Slot, IsFull;
    InvAt(s, a.p);
    InvAt(s, p);
  }

  lemma TakeStep(s: State, a: Action, t: State, p: nat, q: nat)
    requires Inv(s) && Step(s, a) == Live(t) && s.lock == -1 && t.lock == p && p < |t.procs| == |s.procs| && t.procs[p].pc.Writing?
    ensures t.procs[p].pc.i == t.procs[p].pc.since && t.stored == s.stored && t.consumed == s.consumed
    ensures q < |t.procs| && t.procs[q].pc.ReadAsleep? ==> s.procs[q].pc.ReadAsleep?
  {
    hide Bytes, Inc, Slot, IsFull;
    InvAt(s, a.p);
    InvAt(s, p);
  }

  /** Process p took the lock with action k and has kept it, up to action m. */
  lemma {:induction false} Holding(n: nat, acts: seq<Action>, k: nat, m: nat, p: nat, q: nat, u: State, s: State)
    requires Trace(Init(n), acts).Live? && k < m <= |acts| && Trace(Init(n), acts[..k]) == Live(u) && u.lock == -1
    requires forall j: nat :: k < j <= m ==> LockedAt(n, acts, j, p)
    requires Trace(Init(n), acts[..m]) == Live(s) && p < |s.procs| && s.procs[p].pc.Writing?
    ensures |s.procs| == |u.procs| && s.procs[p].pc.since <= s.procs[p].pc.i
    ensures |s.stored| - |s.consumed| == |u.stored| - |u.consumed| + (s.procs[p].pc.i - s.procs[p].pc.since)
    ensures q < |s.procs| && s.procs[q].pc.ReadAsleep? ==> u.procs[q].pc.ReadAsleep?
    decreases m
  {
    hide Trace, Step, Init, Inv;
    OneMore(n, acts, m - 1);
    var s' := Trace(Init(n), acts[..m - 1]).s;
    StepBytes(s', acts[m - 1], s);
    assert LockedAt(n, acts, m, p);
    if m == k + 1 {
      TakeStep(s', acts[k], s, p, q);
    } else {
      assert LockedAt(n, acts, m - 1, p);
      HoldStep(s', acts[m - 1], s, p, q);
      Holding(n, acts, k, m - 1, p, q, u, s');
    }
  }

  /** An early return by a writer that took the lock with action k, when reader q
      was not stranded, strands q iff q sleeps and bytes were stored since. */
  lemma GivingUp(n: nat, acts: seq<Action>, k: nat, u: State, s: State, a: Action, t: State, q: nat)
    requires Trace(Init(n), acts) == Live(s) && GivesUp(s, a) && Step(s, a) == Live(t)
    requires k < |acts| && Trace(Init(n), acts[..k]) == Live(u) && u.lock == -1 && !Stranded(u, q)
    requires forall j: nat :: k < j <= |acts| ==> LockedAt(n, acts, j, a.p)
    ensures Stranded(t, q) <==> Abandons(s, a, q)
  {
    hide Trace, Init, Bytes, Inc, Slot, IsFull, ProcOk;
    assert acts[..|acts|] == acts;
    Holding(n, acts, k, |acts|, a.p, q, u, s);
    TraceInv(n, acts);
    Prefix(s);
    PrefixLive(n, acts, k);
    TraceInv(n, acts[..k]);
    Prefix(u);
  }

  lemma {:induction false} RunOf(s: State, acts: seq<Action>, a: Action, t: State)
    requires Trace(s, acts) == Live(t)
    ensures Trace(s, acts + [a]) == Step(t, a)
  {
    assert (acts + [a])[..|acts|] == acts;
  }

  /** And it happens: a writer killed after its first byte returns without waking
      the reader of it. */
  lemma ReaderLeftAsleep(n: nat) returns (acts: seq<Action>, s: State)
    requires n >= 2
    ensures Trace(Init(n), acts) == Live(s) && Stranded(s, 0) && s.stored == [7] && s.consumed == []
  {
    hide Trace, Inc, Slot, WakeReaders, WakeWriters;
    var s0 := Init(n);
    var a1, a2, a3, a4, a5, a6 := Read(0, 1), Go(0, false), Go(0, false), Write(1, [7, 8]), Go(1, false), Kill(1);
    var s1 := s0.(lock := 0, procs := s0.procs[0 := Proc(Reading(1), false)]);
    var s2 := s0.(lock := 0, procs := s0.procs[0 := Proc(ReadDrowsy(1), false)]);
    var asleep := s0.procs[0 := Proc(ReadAsleep(1), false)];
    var s3 := s0.(procs := asleep);
    var s4 := s3.(lock := 1, procs := asleep[1 := Proc(Writing(0, [7, 8], 0), false)]);
    var s5 := s4.(data := s4.data[Slot(0) := 7], nwrite := Inc(0), stored := [7],
                  procs := asleep[1 := Proc(Writing(1, [7, 8], 0), false)]);
    var s6 := s5.(procs := asleep[1 := Proc(Writing(1, [7, 8], 0), true)]);
    s := s6.(lock := -1, procs := asleep[1 := Proc(Idle, true)]);
    Chain6(s0, s1, s2, s3, s4, s5, s6, a1, a2, a3, a4, a5, a6);
    acts := [a1] + [a2] + [a3] + [a4] + [a5] + [a6] + [Go(1, false)];
    RunOf(s0, [a1] + [a2] + [a3] + [a4] + [a5] + [a6], Go(1, false), s6);
  }

  lemma Chain6(s0: State, s1: State, s2: State, s3: State, s4: State, s5: State, s6: State,
               a1: Action, a2: Action, a3: Action, a4: Action, a5: Action, a6: Action)
    requires Step(s0, a1) == Live(s1) && Step(s1, a2) == Live(s2) && Step(s2, a3) == Live(s3)
    requires Step(s3, a4) == Live(s4) && Step(s4, a5) == Live(s5) && Step(s5, a6) == Live(s6)
    ensures Trace(s0, [a1] + [a2] + [a3] + [a4] + [a5] + [a6]) == Live(s6)
  {
    hide Step;
    assert Trace(s0, [a1]) == Live(s1) by { assert [a1][..0] == []; }
    RunOf(s0, [a1], a2, s1);
    RunOf(s0, [a1] + [a2], a3, s2);
    RunOf(s0, [a1] + [a2] + [a3], a4, s3);
    RunOf(s0, [a1] + [a2] + [a3] + [a4], a5, s4);
    RunOf(s0, [a1] + [a2] + [a3] + [a4] + [a5], a6, s5);
  }
}
