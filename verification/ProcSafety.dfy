/** What every run of the process table keeps (kernel/proc.c). */
module ProcSafety {
  import opened ProcTable

  // ----- who runs where, and who holds which lock -----

  predicate HoldsWait(pc: Pc) {
    pc.ExitReparent? || pc.ExitWakeInit? || pc.ExitWake? || pc.ExitLock? || pc.WaitScan? || pc.WaitChild?
  }

  /** A CPU's c->proc is the process it runs or just ran. */
  predicate CpuOk(s: State, c: nat)
    requires c < |s.cpus|
  {
    match s.cpus[c].ctl
    case Scan => s.cpus[c].proc == -1
    case Hold(j) => s.cpus[c].proc == -1 && j < |s.procs| && s.procs[j].lock == c
    case Back(j) =>
      && s.cpus[c].proc == j < |s.procs| && s.procs[j].cpu == c && s.procs[j].lock == c
      && s.procs[j].pc.Parked? && !s.procs[j].state.RUNNING?
    case InProc(p) =>
      && s.cpus[c].proc == p < |s.procs| && s.procs[p].cpu == c && !s.procs[p].pc.Parked?
  }

  /** What a process's own fields say of each other. */
  predicate Local(x: Proc) {
    && (x.cpu == -1 ==> x.pc.Parked? && !x.state.RUNNING?)
    && (x.pc.ResumeHold? ==> x.lock == x.cpu && x.state.RUNNING?)
    && (x.pc.LeaveHold? ==> x.lock == x.cpu && (x.state.RUNNABLE? || x.state.SLEEPING? || x.state.ZOMBIE?))
    && (!x.pc.Parked? && !x.pc.LeaveHold? ==> x.state.RUNNING?)
    && (x.state.UNUSED? || x.state.USED? ==> x.pc == Parked(Run) && x.cpu == -1)
    && (x.state.ZOMBIE? ==> x.pc == Parked(Run) || x.pc == LeaveHold(Run))
    && (x.pc.Parked? || x.pc.ResumeHold? || x.pc.LeaveHold? ==> MayYield(x.pc.next))
  }

  /** A process runs on the CPU that names it, and nowhere else. */
  predicate ProcOk(s: State, p: nat)
    requires p < |s.procs|
  {
    var x := s.procs[p];
    && Local(x) && -1 <= x.cpu < |s.cpus|
    && (x.cpu >= 0 ==> s.cpus[x.cpu].ctl == Back(p) || s.cpus[x.cpu].ctl == InProc(p))
  }

  /** Thread `p`, standing at `pc`, holds process j's lock. */
  predicate Holds(pc: Pc, p: nat, j: nat) {
    match pc
    case ResumeHold(_) => p == j
    case LeaveHold(_) => p == j
    case ForkHeld(k) => k == j
    case WaitChild(k, _) => k == j
    case _ => false
  }

  /** A held lock is held by a CPU with a reason to. */
  predicate LockOk(s: State, j: nat)
    requires j < |s.procs|
  {
    && -1 <= s.procs[j].lock < |s.cpus|
    && (s.procs[j].lock >= 0 ==>
          match s.cpus[s.procs[j].lock].ctl
          case Scan => false
          case Hold(k) => k == j
          case Back(k) => k == j
          case InProc(p) => p < |s.procs| && Holds(s.procs[p].pc, p, j))
  }

  /** Where a thread is, or will go on. */
  function Place(pc: Pc): (at: Pc) {
    if pc.Parked? || pc.ResumeHold? || pc.LeaveHold? then pc.next else pc
  }

  /** What a thread's position says about the process it works on. */
  predicate PcOk(s: State, p: nat)
    requires p < |s.procs|
  {
    var x := s.procs[p];
    match Place(x.pc)
    case ForkHeld(j) => Newborn(s, p, j) && s.procs[j].lock == x.cpu && s.procs[j].parent == -1
    case ForkLink(j) => Newborn(s, p, j) && s.procs[j].parent == -1
    case ForkMark(j) => Newborn(s, p, j) && s.procs[j].parent == p
    case WaitChild(k, _) => k < |s.procs| && k != p && s.procs[k].lock == x.cpu && s.procs[k].parent == p
    case _ => true
  }

  predicate Newborn(s: State, p: nat, j: nat) {
    j < |s.procs| && j != p && s.procs[j].state.USED?
  }

  predicate Forking(pc: Pc) { Place(pc).ForkHeld? || Place(pc).ForkLink? || Place(pc).ForkMark? }

  function Child(pc: Pc): (j: nat)
    requires Forking(pc)
  {
    Place(pc).child
  }

  /** Running inside fork(). */
  predicate InFork(pc: Pc) { pc.ForkHeld? || pc.ForkLink? || pc.ForkMark? }

  /** Two threads in fork() made different children. */
  predicate ForksApart(s: State, p: nat, q: nat)
    requires p < |s.procs| && q < |s.procs|
  {
    p != q && Forking(s.procs[p].pc) && Forking(s.procs[q].pc) ==> Child(s.procs[p].pc) != Child(s.procs[q].pc)
  }

  predicate Placed(s: State) {
    && (forall c :: 0 <= c < |s.cpus| ==> CpuOk(s, c))
    && (forall p :: 0 <= p < |s.procs| ==> ProcOk(s, p))
    && (forall j :: 0 <= j < |s.procs| ==> LockOk(s, j))
    && (forall p :: 0 <= p < |s.procs| ==> PcOk(s, p))
    && (forall p, q :: 0 <= p < |s.procs| && 0 <= q < |s.procs| ==> ForksApart(s, p, q))
  }

  /** wait_lock is held exactly by the process inside its critical sections. */
  predicate WaitLockOk(s: State) {
    && -1 <= s.waitLock < |s.procs|
    && forall p :: 0 <= p < |s.procs| ==> (HoldsWait(s.procs[p].pc) <==> s.waitLock == p)
  }

  // ----- parents -----

  predicate Alive(st: PState) { st.SLEEPING? || st.RUNNABLE? || st.RUNNING? }

  predicate ParentOk(s: State, p: nat)
    requires p < |s.procs|
  {
    var x := s.procs[p];
    && -1 <= x.parent < |s.procs|
    && (x.parent >= 0 ==> x.parent != p && p != s.init && Alive(s.procs[x.parent].state))
    && ((Alive(x.state) || x.state.ZOMBIE?) && p != s.init ==> x.parent >= 0)
    && (x.state.UNUSED? ==> x.parent == -1)
    && (x.state.USED? && x.parent >= 0 ==> Place(s.procs[x.parent].pc) == ForkMark(p))
  }

  /** How far exit() has got in giving its children away. */
  predicate ExitOk(s: State, p: nat)
    requires p < |s.procs|
  {
    var pc := s.procs[p].pc;
    && (pc.ExitReparent? ==> p != s.init && forall j :: 0 <= j < pc.k && j < |s.procs| ==> s.procs[j].parent != p)
    && (pc.ExitWakeInit? ==> p != s.init && forall j :: 0 <= j <= pc.k && j < |s.procs| ==> s.procs[j].parent != p)
    && (pc.ExitWake? || pc.ExitLock? ==> p != s.init && forall j :: 0 <= j < |s.procs| ==> s.procs[j].parent != p)
  }

  predicate Families(s: State) {
    && s.init < |s.procs| && Alive(s.procs[s.init].state)
    && (forall p :: 0 <= p < |s.procs| ==> ParentOk(s, p))
    && (forall p :: 0 <= p < |s.procs| ==> ExitOk(s, p))
  }

  // ----- no lost wakeup in wait() -----

  /** Process `p` sleeps inside wait(). */
  predicate InWait(s: State, p: nat)
    requires p < |s.procs|
  {
    Asleep(s.procs[p], OnProc(p))
  }

  /** An exit() is about to reach init in its wakeup loop. */
  predicate WakingInit(s: State) {
    0 <= s.waitLock < |s.procs| && s.procs[s.waitLock].pc.ExitWakeInit? && s.procs[s.waitLock].pc.j <= s.init
  }

  /** A process asleep in wait() has no zombie child, unless it is init and its
      wakeup is under way. */
  predicate QuietOk(s: State, p: nat)
    requires p < |s.procs|
  {
    InWait(s, p) && !(p == s.init && WakingInit(s)) ==>
      forall j :: 0 <= j < |s.procs| && s.procs[j].parent == p ==> !s.procs[j].state.ZOMBIE?
  }

  predicate ScanOk(s: State, p: nat)
    requires p < |s.procs|
  {
    var x := s.procs[p];
    && (x.pc.WaitScan? || x.pc.WaitChild? ==>
          forall j :: 0 <= j < x.pc.k && j < |s.procs| && s.procs[j].parent == p ==> !s.procs[j].state.ZOMBIE?)
    && (x.pc.ExitWake? && 0 <= x.parent < x.pc.j && x.parent < |s.procs| ==> !InWait(s, x.parent))
    && (x.pc.ExitLock? && 0 <= x.parent < |s.procs| ==> !InWait(s, x.parent))
  }

  predicate ChanOk(x: Proc, p: nat) {
    x.state.SLEEPING? ==> x.chan.Other? || x.chan == OnProc(p)
  }

  predicate Wakeful(s: State) {
    && (forall p :: 0 <= p < |s.procs| ==> ChanOk(s.procs[p], p))
    && (forall p :: 0 <= p < |s.procs| ==> QuietOk(s, p))
    && (forall p :: 0 <= p < |s.procs| ==> ScanOk(s, p))
  }

  predicate Inv(s: State) {
    Placed(s) && WaitLockOk(s) && Families(s) && Wakeful(s)
  }

  // ----- preservation -----

  /** A lock changes only between free and held by `c`. */
  predicate LockMove(was: int, now: int, c: nat) {
    now == was || ((was == -1 || was == c) && (now == -1 || now == c))
  }

  /** One step of thread `p` on CPU `c` that stays on the CPU and touches, besides
      p, at most table entry `j` (which is p when there is no other). */
  predicate Moves(s: State, t: State, c: nat, p: nat, j: nat) {
    && c < |s.cpus| && p < |s.procs| && j < |s.procs| && |t.procs| == |s.procs|
    && t == s.(procs := s.procs[j := t.procs[j]][p := t.procs[p]], waitLock := t.waitLock)
    && s.cpus[c].ctl == InProc(p) && s.procs[p].cpu == c && s.procs[p].state.RUNNING?
  }

  predicate MoveOk(s: State, t: State, c: nat, p: nat, j: nat) {
    && Moves(s, t, c, p, j)
    && var x, x', y, y' := s.procs[p], t.procs[p], s.procs[j], t.procs[j];
    && x'.cpu == c && !x'.pc.Parked? && x'.parent == x.parent && Local(x') && PcOk(t, p)
    && LockMove(x.lock, x'.lock, c) && (x'.lock == c ==> Holds(x'.pc, p, p))
    && (x.pc.ForkHeld? ==> j == x.pc.child)
    && (x.pc.WaitChild? ==> j == x.pc.k)
    && (j != p ==>
      && y'.cpu == y.cpu && y'.pc == y.pc && Local(y') && (y'.state.RUNNING? ==> y.state.RUNNING?)
      && (y'.parent == y.parent || s.waitLock == -1 || s.waitLock == p)
      && LockMove(y.lock, y'.lock, c) && (y'.lock == c ==> Holds(x'.pc, p, j))
      && (y.state.USED? ==> (Forking(x.pc) && Child(x.pc) == j) || (y'.state.USED? && y'.parent == y.parent)))
    && (Forking(x'.pc) ==> (Forking(x.pc) && Child(x'.pc) == Child(x.pc)) || (Child(x'.pc) == j && !y.state.USED?))
    && (t.waitLock == p <==> HoldsWait(x'.pc))
    && (t.waitLock == s.waitLock ||
        ((s.waitLock == -1 || s.waitLock == p) && (t.waitLock == -1 || t.waitLock == p)))
  }

  /** Instances of `Placed`. */
  lemma PlacedAt(s: State, p: nat)
    requires Placed(s) && p < |s.procs|
    ensures ProcOk(s, p) && LockOk(s, p) && PcOk(s, p)
  {
  }

  lemma PlacedPair(s: State, p: nat, q: nat)
    requires Placed(s) && p < |s.procs| && q < |s.procs|
    ensures ForksApart(s, p, q)
  {
    hide CpuOk, ProcOk, LockOk, PcOk, ForksApart;
  }

  lemma PlacedCpu(s: State, c: nat)
    requires Placed(s) && c < |s.cpus|
    ensures CpuOk(s, c)
  {
  }

  lemma MoveCpu(s: State, t: State, c: nat, p: nat, j: nat, d: nat)
    requires Placed(s) && MoveOk(s, t, c, p, j) && d < |s.cpus|
    ensures CpuOk(t, d)
  {
    PlacedCpu(s, d);
    PlacedAt(s, j);
    PlacedAt(s, p);
    hide Placed, PcOk;
  }

  lemma MoveProc(s: State, t: State, c: nat, p: nat, j: nat, q: nat)
    requires Placed(s) && MoveOk(s, t, c, p, j) && q < |s.procs|
    ensures ProcOk(t, q)
  {
    PlacedAt(s, q);
    hide Placed, PcOk, LockOk, Holds, HoldsWait, Local;
  }

  lemma MoveLock(s: State, t: State, c: nat, p: nat, j: nat, k: nat)
    requires Placed(s) && MoveOk(s, t, c, p, j) && k < |s.procs|
    ensures LockOk(t, k)
  {
    PlacedAt(s, k);
    PlacedAt(s, p);
    hide Placed, PcOk, Local, HoldsWait;
  }

  lemma MovePc(s: State, t: State, c: nat, p: nat, j: nat, q: nat)
    requires Placed(s) && WaitLockOk(s) && MoveOk(s, t, c, p, j) && q < |s.procs|
    ensures PcOk(t, q)
  {
    hide Placed, LockOk, Holds;
    PlacedAt(s, q);
    PlacedAt(s, p);
    PlacedPair(s, p, q);
  }

  lemma MoveForks(s: State, t: State, c: nat, p: nat, j: nat, q: nat, r: nat)
    requires Placed(s) && MoveOk(s, t, c, p, j) && q < |s.procs| && r < |s.procs|
    ensures ForksApart(t, q, r)
  {
    PlacedAt(s, q);
    PlacedAt(s, r);
    assert ForksApart(s, q, r);
    hide Placed, LockOk, ProcOk, Holds, HoldsWait, Local;
  }

  lemma MovePlaced(s: State, t: State, c: nat, p: nat, j: nat)
    requires Placed(s) && WaitLockOk(s) && MoveOk(s, t, c, p, j)
    ensures Placed(t) && WaitLockOk(t)
  {
    forall d | 0 <= d < |t.cpus| ensures CpuOk(t, d) { MoveCpu(s, t, c, p, j, d); }
    forall q | 0 <= q < |t.procs| ensures ProcOk(t, q) { MoveProc(s, t, c, p, j, q); }
    forall q | 0 <= q < |t.procs| ensures LockOk(t, q) { MoveLock(s, t, c, p, j, q); }
    forall q | 0 <= q < |t.procs| ensures PcOk(t, q) { MovePc(s, t, c, p, j, q); }
    forall q, r | 0 <= q < |t.procs| && 0 <= r < |t.procs| ensures ForksApart(t, q, r) {
      MoveForks(s, t, c, p, j, q, r);
    }
    hide CpuOk, ProcOk, LockOk, PcOk, ForksApart;
  }

  // ----- every step of a thread is such a move -----

  lemma ParentAt(s: State, p: nat)
    requires Families(s) && p < |s.procs|
    ensures ParentOk(s, p)
  {
    hide ParentOk, ExitOk;
  }

  lemma WakeMoves(s: State, t: State, c: nat, p: nat, op: Op, j: nat)
    requires Placed(s) && WaitLockOk(s) && c < |s.cpus| && p < |s.procs| && s.cpus[c].ctl == InProc(p)
    requires s.procs[p].pc.Run? && RunStep(s, c, p, op) == Live(t) && (op.Wakeup? || op.Kill?) && j == op.j
    ensures MoveOk(s, t, c, p, j)
  {
    hide Placed;
    PlacedAt(s, p);
    assert t.procs == s.procs[j := t.procs[j]][p := t.procs[p]];
    PlacedAt(s, j);
    PlacedCpu(s, c);
  }

  lemma CallMoves(s: State, t: State, c: nat, p: nat, op: Op, j: nat)
    requires Placed(s) && WaitLockOk(s) && Families(s) && c < |s.cpus| && p < |s.procs| && s.cpus[c].ctl == InProc(p)
    requires s.procs[p].pc.Run? && RunStep(s, c, p, op) == Live(t) && !(op.Wakeup? || op.Kill?)
    requires j == if op.Fork? then op.j else p
    ensures MoveOk(s, t, c, p, j)
  {
    hide Placed, Families;
    PlacedAt(s, p);
    assert t.procs == s.procs[j := t.procs[j]][p := t.procs[p]];
    PlacedAt(s, j);
    PlacedCpu(s, c);
    ParentAt(s, j);
  }

  lemma RunMoves(s: State, t: State, c: nat, p: nat, op: Op, j: nat)
    requires Placed(s) && WaitLockOk(s) && Families(s) && c < |s.cpus| && p < |s.procs| && s.cpus[c].ctl == InProc(p)
    requires s.procs[p].pc.Run? && RunStep(s, c, p, op) == Live(t)
    requires j == if op.Wakeup? || op.Kill? || op.Fork? then op.j else p
    ensures MoveOk(s, t, c, p, j)
  {
    hide Placed, WaitLockOk, Families, MoveOk, RunStep;
    if op.Wakeup? || op.Kill? { WakeMoves(s, t, c, p, op, j); } else { CallMoves(s, t, c, p, op, j); }
  }

  lemma ForkMoves(s: State, t: State, c: nat, p: nat, op: Op, j: nat)
    requires Placed(s) && WaitLockOk(s) && c < |s.cpus| && p < |s.procs| && s.cpus[c].ctl == InProc(p)
    requires InFork(s.procs[p].pc) && !op.Yield? && ProcStep(s, c, p, op) == Live(t) && j == s.procs[p].pc.child
    ensures MoveOk(s, t, c, p, j)
  {
    PlacedAt(s, p);
    assert t.procs == s.procs[j := t.procs[j]][p := t.procs[p]];
    PlacedCpu(s, c);
    PlacedAt(s, j);
    hide Placed;
  }

  lemma OwnMoves(s: State, t: State, c: nat, p: nat, op: Op)
    requires Placed(s) && WaitLockOk(s) && c < |s.cpus| && p < |s.procs| && s.cpus[c].ctl == InProc(p)
    requires (op.Yield? || s.procs[p].pc.WantWait? || s.procs[p].pc.ResumeHold?) && ProcStep(s, c, p, op) == Live(t)
    ensures MoveOk(s, t, c, p, p)
  {
    PlacedAt(s, p);
    PlacedCpu(s, c);
    hide Placed;
  }

  lemma ReparentMoves(s: State, t: State, c: nat, p: nat, j: nat)
    requires Placed(s) && WaitLockOk(s) && Families(s) && c < |s.cpus| && p < |s.procs| && s.cpus[c].ctl == InProc(p)
    requires s.procs[p].pc.ExitReparent? && ExitStep(s, c, p) == Live(t) && j == ExitTarget(s, p)
    ensures MoveOk(s, t, c, p, j)
  {
    PlacedAt(s, p);
    assert t.procs == s.procs[j := t.procs[j]][p := t.procs[p]];
    PlacedCpu(s, c);
    PlacedAt(s, j);
    assert ParentOk(s, j);
    hide Placed, Families;
  }

  lemma ExitMoves(s: State, t: State, c: nat, p: nat, j: nat)
    requires Placed(s) && WaitLockOk(s) && c < |s.cpus| && p < |s.procs| && s.cpus[c].ctl == InProc(p)
    requires !s.procs[p].pc.ExitReparent? && ExitStep(s, c, p) == Live(t) && j == ExitTarget(s, p)
    ensures MoveOk(s, t, c, p, j)
  {
    hide Placed;
    PlacedAt(s, p);
    assert t.procs == s.procs[j := t.procs[j]][p := t.procs[p]];
    PlacedCpu(s, c);
    PlacedAt(s, j);
  }

  lemma ScanMoves(s: State, t: State, c: nat, p: nat, op: Op, j: nat)
    requires Placed(s) && WaitLockOk(s) && Families(s) && c < |s.cpus| && p < |s.procs| && s.cpus[c].ctl == InProc(p)
    requires s.procs[p].pc.WaitScan? && WaitStep(s, c, p, op) == Live(t) && j == WaitTarget(s, p)
    ensures MoveOk(s, t, c, p, j)
  {
    PlacedAt(s, p);
    assert t.procs == s.procs[j := t.procs[j]][p := t.procs[p]];
    PlacedCpu(s, c);
    PlacedAt(s, j);
    assert ParentOk(s, j);
    hide Placed, Families;
  }

  lemma ReapMoves(s: State, t: State, c: nat, p: nat, op: Op, j: nat)
    requires Placed(s) && WaitLockOk(s) && c < |s.cpus| && p < |s.procs| && s.cpus[c].ctl == InProc(p)
    requires s.procs[p].pc.WaitChild? && WaitStep(s, c, p, op) == Live(t) && j == WaitTarget(s, p)
    ensures MoveOk(s, t, c, p, j)
  {
    PlacedAt(s, p);
    assert t.procs == s.procs[j := t.procs[j]][p := t.procs[p]];
    PlacedCpu(s, c);
    PlacedAt(s, j);
    if s.procs[j].cpu >= 0 { PlacedCpu(s, s.procs[j].cpu); }
    hide Placed;
  }

  /** The table entry exit() is looking at. */
  function ExitTarget(s: State, p: nat): (j: nat)
    requires p < |s.procs|
  {
    var pc := s.procs[p].pc;
    if pc.ExitReparent? && pc.k < |s.procs| then pc.k
    else if (pc.ExitWakeInit? || pc.ExitWake?) && pc.j < |s.procs| then pc.j
    else p
  }

  /** The table entry wait() is looking at. */
  function WaitTarget(s: State, p: nat): (j: nat)
    requires p < |s.procs|
  {
    var pc := s.procs[p].pc;
    if (pc.WaitScan? || pc.WaitChild?) && pc.k < |s.procs| then pc.k else p
  }

  // ----- scheduler steps -----

  /** One step of CPU c's scheduler, or a swtch into it, about process `k`. */
  predicate SwitchOk(s: State, t: State, c: nat, k: nat) {
    && c < |s.cpus| && k < |s.procs| && |t.procs| == |s.procs| && |t.cpus| == |s.cpus|
    && t == s.(procs := s.procs[k := t.procs[k]], cpus := s.cpus[c := t.cpus[c]])
    && (s.cpus[c].ctl == Scan || s.cpus[c].ctl == Hold(k) || s.cpus[c].ctl == Back(k) || s.cpus[c].ctl == InProc(k))
    && var y, y' := s.procs[k], t.procs[k];
    && y'.parent == y.parent && y'.chan == y.chan
    && (y'.state == y.state || (y.state.RUNNABLE? && y'.state.RUNNING?))
    && (y.lock == -1 || y.lock == c)
    && (y' == y.(lock := y'.lock) || y.cpu == -1 || y.cpu == c)
    && (y'.pc == y.pc || ((y.pc.Parked? || y.pc.LeaveHold?) && (y'.pc.Parked? || y'.pc.ResumeHold?) && y'.pc.next == y.pc.next))
    && CpuOk(t, c) && ProcOk(t, k) && LockOk(t, k) && PcOk(t, k)
  }

  lemma SchedSwitches(s: State, t: State, c: nat, j: nat, k: nat)
    requires Placed(s) && c < |s.cpus| && SchedStep(s, c, j) == Live(t)
    requires k == match s.cpus[c].ctl case Scan => j case Hold(i) => i case Back(i) => i case InProc(i) => i
    ensures SwitchOk(s, t, c, k)
  {
    PlacedCpu(s, c);
    PlacedAt(s, k);
    if s.procs[k].cpu >= 0 { PlacedCpu(s, s.procs[k].cpu); }
    hide Placed;
  }

  lemma LeaveSwitches(s: State, t: State, c: nat, p: nat, op: Op)
    requires Placed(s) && c < |s.cpus| && p < |s.procs| && s.cpus[c].ctl == InProc(p)
    requires s.procs[p].pc.LeaveHold? && ProcStep(s, c, p, op) == Live(t)
    ensures SwitchOk(s, t, c, p)
  {
    PlacedCpu(s, c);
    PlacedAt(s, p);
    hide Placed;
  }

  lemma SwitchCpu(s: State, t: State, c: nat, k: nat, d: nat)
    requires Placed(s) && SwitchOk(s, t, c, k) && d < |s.cpus|
    ensures CpuOk(t, d)
  {
    PlacedCpu(s, d);
    PlacedAt(s, k);
    hide Placed, PcOk;
  }

  lemma SwitchProc(s: State, t: State, c: nat, k: nat, q: nat)
    requires Placed(s) && SwitchOk(s, t, c, k) && q < |s.procs|
    ensures ProcOk(t, q) && LockOk(t, q) && PcOk(t, q)
  {
    PlacedCpu(s, c);
    PlacedAt(s, k);
    PlacedAt(s, q);
    hide Placed, Local;
  }

  // ----- families and wakeups -----

  /** What a move does to the family tree and to sleepers in wait(). */
  predicate KinOk(s: State, t: State, p: nat, j: nat) {
    && |t.procs| == |s.procs| && p < |s.procs| && j < |s.procs| && t.init == s.init < |s.procs|
    && var x, x', y, y' := s.procs[p], t.procs[p], s.procs[j], t.procs[j];
    && ParentOk(t, p) && ParentOk(t, j) && ExitOk(t, p) && ScanOk(t, p) && ChanOk(x', p) && ChanOk(y', j)
    && (Alive(x'.state) || (x.pc.ExitLock? && p != s.init))
    && (Alive(y.state) ==> Alive(y'.state) || j == p)
    && (Place(x.pc).ForkMark? ==> j == Child(x.pc) || Place(x'.pc) == Place(x.pc))
    && (x'.state.ZOMBIE? ==> s.waitLock == p && (0 <= x.parent < |s.procs| ==> !InWait(s, x.parent)))
    && (InWait(t, p) ==> s.waitLock == p && NoZombie(s, p))
    && (j != p ==> (InWait(t, j) ==> InWait(s, j)))
    && (j != p && y'.state.ZOMBIE? ==>
          y.state.ZOMBIE? && (y'.parent == y.parent || (y'.parent == s.init && WakingInit(t))))
    && (WakingInit(s) && !WakingInit(t) ==> !InWait(t, s.init))
  }

  /** No child of `p` is a zombie. */
  predicate NoZombie(s: State, p: nat) {
    forall j :: 0 <= j < |s.procs| && s.procs[j].parent == p ==> !s.procs[j].state.ZOMBIE?
  }

  lemma MoveParent(s: State, t: State, c: nat, p: nat, j: nat, q: nat)
    requires Families(s) && MoveOk(s, t, c, p, j) && KinOk(s, t, p, j) && q < |s.procs|
    ensures ParentOk(t, q)
  {
    assert ParentOk(s, q) && ExitOk(s, p);
    hide Families, PcOk, Local, Holds, HoldsWait, ScanOk, NoZombie, WakingInit, InWait, ChanOk;
  }

  lemma MoveExit(s: State, t: State, c: nat, p: nat, j: nat, q: nat)
    requires Families(s) && WaitLockOk(s) && MoveOk(s, t, c, p, j) && KinOk(s, t, p, j) && q < |s.procs|
    ensures ExitOk(t, q)
  {
    assert ExitOk(s, q) && ParentOk(t, j);
    hide Families, PcOk, Local, Holds, ScanOk, NoZombie, WakingInit, InWait, ChanOk;
  }

  lemma MoveQuiet(s: State, t: State, c: nat, p: nat, j: nat, q: nat)
    requires Wakeful(s) && MoveOk(s, t, c, p, j) && KinOk(s, t, p, j) && q < |s.procs|
    ensures QuietOk(t, q)
  {
    assert QuietOk(s, q);
    hide Wakeful, PcOk, Local, Holds, HoldsWait, ScanOk, ExitOk, ParentOk, WakingInit, ChanOk;
  }

  lemma MoveScan(s: State, t: State, c: nat, p: nat, j: nat, q: nat)
    requires Wakeful(s) && WaitLockOk(s) && MoveOk(s, t, c, p, j) && KinOk(s, t, p, j) && q < |s.procs|
    ensures ScanOk(t, q)
  {
    assert ScanOk(s, q);
    hide Wakeful, PcOk, Local, Holds, ExitOk, ParentOk, WakingInit, ChanOk, QuietOk;
  }

  lemma MoveKin(s: State, t: State, c: nat, p: nat, j: nat)
    requires Inv(s) && MoveOk(s, t, c, p, j) && KinOk(s, t, p, j)
    ensures Families(t) && Wakeful(t)
  {
    forall q | 0 <= q < |t.procs| ensures ParentOk(t, q) { MoveParent(s, t, c, p, j, q); }
    forall q | 0 <= q < |t.procs| ensures ExitOk(t, q) { MoveExit(s, t, c, p, j, q); }
    forall q | 0 <= q < |t.procs| ensures QuietOk(t, q) { MoveQuiet(s, t, c, p, j, q); }
    forall q | 0 <= q < |t.procs| ensures ScanOk(t, q) { MoveScan(s, t, c, p, j, q); }
    hide Placed, WaitLockOk, ParentOk, ExitOk, QuietOk, ScanOk, PcOk, Local, Holds;
  }

  lemma RunKin(s: State, t: State, c: nat, p: nat, op: Op, j: nat)
    requires WaitLockOk(s) && Families(s) && Wakeful(s) && Moves(s, t, c, p, j)
    requires (op.Wakeup? || op.Kill?) && s.procs[p].pc.Run? && RunStep(s, c, p, op) == Live(t)
    ensures KinOk(s, t, p, j)
  {
    hide WaitLockOk, Families, Wakeful, NoZombie;
    KinAt(s, p);
    KinAt(s, j);
  }

  lemma CallKin(s: State, t: State, c: nat, p: nat, op: Op, j: nat)
    requires WaitLockOk(s) && Families(s) && Wakeful(s) && Moves(s, t, c, p, j)
    requires !(op.Wakeup? || op.Kill?) && s.procs[p].pc.Run? && RunStep(s, c, p, op) == Live(t)
    ensures KinOk(s, t, p, j)
  {
    hide WaitLockOk, Families, Wakeful, NoZombie;
    KinAt(s, p);
    KinAt(s, j);
  }

  lemma ForkKin(s: State, t: State, c: nat, p: nat, op: Op, j: nat)
    requires WaitLockOk(s) && Families(s) && Wakeful(s) && Moves(s, t, c, p, j)
    requires InFork(s.procs[p].pc) && !op.Yield? && ProcStep(s, c, p, op) == Live(t) && j == s.procs[p].pc.child && PcOk(s, p)
    ensures KinOk(s, t, p, j)
  {
    hide Families, Wakeful;
    KinAt(s, p);
    KinAt(s, j);
  }

  lemma OwnKin(s: State, t: State, c: nat, p: nat, op: Op, j: nat)
    requires WaitLockOk(s) && Families(s) && Wakeful(s) && Moves(s, t, c, p, j)
    requires (op.Yield? || s.procs[p].pc.WantWait? || s.procs[p].pc.ResumeHold?) && ProcStep(s, c, p, op) == Live(t) && j == p && ProcOk(s, p)
    ensures KinOk(s, t, p, j)
  {
    hide Families, Wakeful;
    KinAt(s, p);
    KinAt(s, j);
  }

  lemma ReparentKin(s: State, t: State, c: nat, p: nat, j: nat)
    requires WaitLockOk(s) && Families(s) && Wakeful(s) && Moves(s, t, c, p, j)
    requires s.procs[p].pc.ExitReparent? && ExitStep(s, c, p) == Live(t) && j == ExitTarget(s, p)
    ensures KinOk(s, t, p, j)
  {
    hide Families, Wakeful;
    KinAt(s, p);
    KinAt(s, j);
  }

  /** What the invariant says of process p as a relative. */
  lemma KinAt(s: State, p: nat)
    requires Families(s) && Wakeful(s) && p < |s.procs|
    ensures ParentOk(s, p) && ExitOk(s, p) && ScanOk(s, p) && ChanOk(s.procs[p], p)
    ensures s.init < |s.procs| && Alive(s.procs[s.init].state)
  {
    hide ParentOk, ExitOk, ScanOk, ChanOk, QuietOk;
  }

  lemma WakeInitKin(s: State, t: State, c: nat, p: nat, j: nat)
    requires WaitLockOk(s) && Families(s) && Wakeful(s) && Moves(s, t, c, p, j)
    requires s.procs[p].pc.ExitWakeInit? && ExitStep(s, c, p) == Live(t) && j == ExitTarget(s, p)
    ensures KinOk(s, t, p, j)
  {
    hide Families, Wakeful, NoZombie, QuietOk;
    KinAt(s, p);
    KinAt(s, j);
  }

  lemma WakeParentKin(s: State, t: State, c: nat, p: nat, j: nat)
    requires WaitLockOk(s) && Families(s) && Wakeful(s) && Moves(s, t, c, p, j)
    requires s.procs[p].pc.ExitWake? && ExitStep(s, c, p) == Live(t) && j == ExitTarget(s, p)
    ensures KinOk(s, t, p, j)
  {
    hide Families, Wakeful, NoZombie, QuietOk;
    KinAt(s, p);
    KinAt(s, j);
  }

  lemma ZombieKin(s: State, t: State, c: nat, p: nat)
    requires WaitLockOk(s) && Families(s) && Wakeful(s) && Moves(s, t, c, p, p)
    requires s.procs[p].pc.ExitLock? && ExitStep(s, c, p) == Live(t)
    ensures KinOk(s, t, p, p)
  {
    hide Families, Wakeful, NoZombie, QuietOk;
    KinAt(s, p);
  }

  lemma ExitKin(s: State, t: State, c: nat, p: nat, j: nat)
    requires WaitLockOk(s) && Families(s) && Wakeful(s) && Moves(s, t, c, p, j)
    requires !s.procs[p].pc.ExitReparent? && ExitStep(s, c, p) == Live(t) && j == ExitTarget(s, p)
    ensures KinOk(s, t, p, j)
  {
    hide WaitLockOk, Families, Wakeful, KinOk;
    match s.procs[p].pc
    case ExitLock => ZombieKin(s, t, c, p);
    case ExitWake(_) => WakeParentKin(s, t, c, p, j);
    case ExitWakeInit(_, _) => WakeInitKin(s, t, c, p, j);
    case _ =>
  }

  lemma ScanKin(s: State, t: State, c: nat, p: nat, op: Op, j: nat)
    requires WaitLockOk(s) && Families(s) && Wakeful(s) && Moves(s, t, c, p, j)
    requires s.procs[p].pc.WaitScan? && WaitStep(s, c, p, op) == Live(t) && j == WaitTarget(s, p)
    ensures KinOk(s, t, p, j)
  {
    hide Families, Wakeful;
    KinAt(s, p);
    KinAt(s, j);
  }

  lemma ReapKin(s: State, t: State, c: nat, p: nat, op: Op, j: nat)
    requires WaitLockOk(s) && Families(s) && Wakeful(s) && Moves(s, t, c, p, j)
    requires s.procs[p].pc.WaitChild? && WaitStep(s, c, p, op) == Live(t) && j == WaitTarget(s, p) && PcOk(s, p)
    ensures KinOk(s, t, p, j)
  {
    hide Families, Wakeful;
    KinAt(s, p);
    KinAt(s, j);
  }
  // ----- every step keeps the invariant -----

  lemma RunKeeps(s: State, t: State, c: nat, p: nat, op: Op, j: nat)
    requires Inv(s) && c < |s.cpus| && p < |s.procs| && s.cpus[c].ctl == InProc(p)
    requires s.procs[p].pc.Run? && RunStep(s, c, p, op) == Live(t) && j == (if op.Wakeup? || op.Kill? || op.Fork? then op.j else p)
    ensures Inv(t)
  {
    hide Placed, WaitLockOk, Families, Wakeful, RunStep, ProcStep, ExitStep, WaitStep, KinOk;
    RunMoves(s, t, c, p, op, j);
    MovePlaced(s, t, c, p, j);
    if op.Wakeup? || op.Kill? { RunKin(s, t, c, p, op, j); } else { CallKin(s, t, c, p, op, j); }
    MoveKin(s, t, c, p, j);
  }

  lemma ForkKeeps(s: State, t: State, c: nat, p: nat, op: Op, j: nat)
    requires Inv(s) && c < |s.cpus| && p < |s.procs| && s.cpus[c].ctl == InProc(p)
    requires InFork(s.procs[p].pc) && !op.Yield? && ProcStep(s, c, p, op) == Live(t) && j == s.procs[p].pc.child
    ensures Inv(t)
  {
    hide Placed, WaitLockOk, Families, Wakeful, RunStep, ProcStep, ExitStep, WaitStep, KinOk;
    ForkMoves(s, t, c, p, op, j);
    MovePlaced(s, t, c, p, j);
    PlacedAt(s, p);
    ForkKin(s, t, c, p, op, j);
    MoveKin(s, t, c, p, j);
  }

  lemma OwnKeeps(s: State, t: State, c: nat, p: nat, op: Op, j: nat)
    requires Inv(s) && c < |s.cpus| && p < |s.procs| && s.cpus[c].ctl == InProc(p)
    requires (op.Yield? || s.procs[p].pc.WantWait? || s.procs[p].pc.ResumeHold?) && ProcStep(s, c, p, op) == Live(t) && j == p
    ensures Inv(t)
  {
    hide Placed, WaitLockOk, Families, Wakeful, RunStep, ProcStep, ExitStep, WaitStep, KinOk;
    OwnMoves(s, t, c, p, op);
    MovePlaced(s, t, c, p, j);
    PlacedAt(s, p);
    OwnKin(s, t, c, p, op, j);
    MoveKin(s, t, c, p, j);
  }

  lemma ExitKeeps(s: State, t: State, c: nat, p: nat, op: Op, j: nat)
    requires Inv(s) && c < |s.cpus| && p < |s.procs| && s.cpus[c].ctl == InProc(p)
    requires ExitStep(s, c, p) == Live(t) && j == ExitTarget(s, p)
    ensures Inv(t)
  {
    hide Placed, WaitLockOk, Families, Wakeful, RunStep, ProcStep, ExitStep, WaitStep, KinOk;
    if s.procs[p].pc.ExitReparent? { ReparentMoves(s, t, c, p, j); } else { ExitMoves(s, t, c, p, j); }
    MovePlaced(s, t, c, p, j);
    if s.procs[p].pc.ExitReparent? { ReparentKin(s, t, c, p, j); } else { ExitKin(s, t, c, p, j); }
    MoveKin(s, t, c, p, j);
  }

  lemma WaitKeeps(s: State, t: State, c: nat, p: nat, op: Op, j: nat)
    requires Inv(s) && c < |s.cpus| && p < |s.procs| && s.cpus[c].ctl == InProc(p)
    requires (s.procs[p].pc.WaitScan? || s.procs[p].pc.WaitChild?) && WaitStep(s, c, p, op) == Live(t) && j == WaitTarget(s, p)
    ensures Inv(t)
  {
    hide Placed, WaitLockOk, Families, Wakeful, RunStep, ProcStep, ExitStep, WaitStep, KinOk;
    if s.procs[p].pc.WaitScan? { ScanMoves(s, t, c, p, op, j); } else { ReapMoves(s, t, c, p, op, j); }
    MovePlaced(s, t, c, p, j);
    PlacedAt(s, p);
    if s.procs[p].pc.WaitScan? { ScanKin(s, t, c, p, op, j); } else { ReapKin(s, t, c, p, op, j); }
    MoveKin(s, t, c, p, j);
  }

  lemma SwitchKeeps(s: State, t: State, c: nat, k: nat)
    requires Inv(s) && SwitchOk(s, t, c, k)
    ensures Inv(t)
  {
    forall d | 0 <= d < |t.cpus| ensures CpuOk(t, d) { SwitchCpu(s, t, c, k, d); }
    forall q | 0 <= q < |t.procs| ensures ProcOk(t, q) && LockOk(t, q) && PcOk(t, q) { SwitchProc(s, t, c, k, q); }
    forall q, r | 0 <= q < |t.procs| && 0 <= r < |t.procs| ensures ForksApart(t, q, r) { assert ForksApart(s, q, r); }
    SwitchKin(s, t, c, k);
    hide CpuOk, ProcOk, LockOk, PcOk, Families, Wakeful;
  }

  lemma SwitchKin(s: State, t: State, c: nat, k: nat)
    requires Families(s) && Wakeful(s) && SwitchOk(s, t, c, k)
    ensures Families(t) && Wakeful(t)
  {
    hide CpuOk, ProcOk, LockOk, PcOk;
    forall q | 0 <= q < |t.procs| ensures ParentOk(t, q) && ExitOk(t, q) { assert ParentOk(s, q) && ExitOk(s, q); }
    forall q | 0 <= q < |t.procs| ensures QuietOk(t, q) && ScanOk(t, q) { assert QuietOk(s, q) && ScanOk(s, q); }
  }

  lemma ThreadInv(s: State, c: nat, p: nat, op: Op, t: State)
    requires Inv(s) && c < |s.cpus| && p < |s.procs| && s.cpus[c].ctl == InProc(p) && ProcStep(s, c, p, op) == Live(t)
    ensures Inv(t)
  {
    var pc := s.procs[p].pc;
    if op.Yield? {
      OwnKeeps(s, t, c, p, op, p);
    } else if pc.Run? {
      RunKeeps(s, t, c, p, op, if op.Wakeup? || op.Kill? || op.Fork? then op.j else p);
    } else if pc.LeaveHold? {
      LeaveSwitches(s, t, c, p, op);
      SwitchKeeps(s, t, c, p);
    } else if InFork(pc) {
      ForkKeeps(s, t, c, p, op, pc.child);
    } else if pc.WantWait? || pc.ResumeHold? {
      OwnKeeps(s, t, c, p, op, p);
    } else if pc.WaitScan? || pc.WaitChild? {
      WaitKeeps(s, t, c, p, op, WaitTarget(s, p));
    } else {
      ExitKeeps(s, t, c, p, op, ExitTarget(s, p));
    }
    hide Placed, WaitLockOk, Families, Wakeful, RunStep, ExitStep, WaitStep, SwitchOk;
  }

  /** Sleeper j, waiting for something else than a child, becomes runnable. */
  predicate Roused(s: State, t: State, j: nat) {
    && j < |s.procs| && s.procs[j].state.SLEEPING? && s.procs[j].chan.Other? && s.procs[j].lock == -1
    && t == s.(procs := s.procs[j := s.procs[j].(state := RUNNABLE)])
  }

  lemma RousedAt(s: State, t: State, j: nat, q: nat)
    requires Placed(s) && Roused(s, t, j) && q < |s.procs|
    ensures ProcOk(t, q) && LockOk(t, q) && PcOk(t, q)
  {
    hide Placed;
    PlacedAt(s, q);
    PlacedAt(s, j);
  }

  lemma RousedCpu(s: State, t: State, j: nat, c: nat)
    requires Placed(s) && Roused(s, t, j) && c < |s.cpus|
    ensures CpuOk(t, c)
  {
    hide Placed;
    PlacedCpu(s, c);
    PlacedAt(s, j);
  }

  lemma RousedKin(s: State, t: State, j: nat, q: nat)
    requires Families(s) && Wakeful(s) && Roused(s, t, j) && q < |s.procs|
    ensures ParentOk(t, q) && ExitOk(t, q) && ScanOk(t, q) && QuietOk(t, q) && ChanOk(t.procs[q], q)
    ensures t.init < |t.procs| && Alive(t.procs[t.init].state)
  {
    hide Families, Wakeful;
    KinAt(s, q);
    QuietAt(s, q);
  }

  lemma QuietAt(s: State, q: nat)
    requires Wakeful(s) && q < |s.procs|
    ensures QuietOk(s, q)
  {
    hide QuietOk, ScanOk, ChanOk;
  }

  lemma IntrKeeps(s: State, t: State, j: nat)
    requires Inv(s) && Roused(s, t, j)
    ensures Inv(t)
  {
    hide CpuOk, ProcOk, LockOk, PcOk, ParentOk, ExitOk, ScanOk, QuietOk, ChanOk, HoldsWait, Alive;
    forall d | 0 <= d < |t.cpus| ensures CpuOk(t, d) { RousedCpu(s, t, j, d); }
    forall q | 0 <= q < |t.procs| ensures ProcOk(t, q) && LockOk(t, q) && PcOk(t, q) { RousedAt(s, t, j, q); }
    forall q, r | 0 <= q < |t.procs| && 0 <= r < |t.procs| ensures ForksApart(t, q, r) { assert ForksApart(s, q, r); }
    RousedKin(s, t, j, j);
    forall q | 0 <= q < |t.procs|
      ensures ParentOk(t, q) && ExitOk(t, q) && ScanOk(t, q) && QuietOk(t, q) && ChanOk(t.procs[q], q)
    {
      RousedKin(s, t, j, q);
    }
    hide Forking, Child;
  }

  /** Every action of every CPU, and every interrupt, keeps the invariant. */
  lemma StepInv(s: State, a: Action, t: State)
    requires Inv(s) && Step(s, a) == Live(t)
    ensures Inv(t)
  {
    if a.Sched? {
      var k := match s.cpus[a.c].ctl case Scan => a.j case Hold(i) => i case Back(i) => i case InProc(i) => i;
      SchedSwitches(s, t, a.c, a.j, k);
      SwitchKeeps(s, t, a.c, k);
    } else if a.Intr? {
      PlacedAt(s, a.j);
      if Asleep(s.procs[a.j], Other(a.ch)) { IntrKeeps(s, t, a.j); } else { assert t == s; }
    } else {
      ThreadInv(s, a.c, s.cpus[a.c].ctl.p, a.op, t);
    }
    hide Placed, WaitLockOk, Families, Wakeful, SchedStep, ProcStep, SwitchOk;
  }

  lemma BootInv(nproc: nat, ncpu: nat, init: nat)
    requires init < nproc
    ensures Inv(Boot(nproc, ncpu, init))
  {
  }

  lemma {:induction false} TraceInv(s: State, acts: seq<Action>)
    requires Inv(s)
    ensures Trace(s, acts).Live? ==> Inv(Trace(s, acts).s)
  {
    if acts != [] && Trace(s, acts).Live? {
      TraceInv(s, acts[..|acts| - 1]);
      StepInv(Trace(s, acts[..|acts| - 1]).s, acts[|acts| - 1], Trace(s, acts).s);
    }
    hide Inv, Step;
  }

  // ----- the promises -----

  /** A state reached from boot by some interleaving. */
  ghost predicate Reachable(s: State) {
    exists nproc: nat, ncpu: nat, init: nat, acts: seq<Action> ::
      init < nproc && Trace(Boot(nproc, ncpu, init), acts) == Live(s)
  }

  lemma ReachableInv(s: State)
    requires Reachable(s)
    ensures Inv(s)
  {
    hide Inv, Boot, Trace;
    var nproc: nat, ncpu: nat, init: nat, acts: seq<Action> :|
      init < nproc && Trace(Boot(nproc, ncpu, init), acts) == Live(s);
    BootInv(nproc, ncpu, init);
    TraceInv(Boot(nproc, ncpu, init), acts);
  }

  /** No process is ever on two CPUs, and while p->lock is free the state
      RUNNING means exactly that some CPU runs p. */
  lemma RunsOnOneCpu(s: State, p: nat, c: nat, d: nat)
    requires Reachable(s) && p < |s.procs| && c < |s.cpus| && d < |s.cpus|
    ensures s.cpus[c].proc == p && s.cpus[d].proc == p ==> c == d
    ensures s.procs[p].lock == -1 && s.cpus[c].proc == p ==> s.procs[p].state.RUNNING? && s.cpus[c].ctl == InProc(p)
    ensures s.procs[p].lock == -1 && s.procs[p].state.RUNNING? ==>
              0 <= s.procs[p].cpu < |s.cpus| && s.cpus[s.procs[p].cpu].proc == p
  {
    ReachableInv(s);
    PlacedCpu(s, c);
    PlacedCpu(s, d);
    PlacedAt(s, p);
    if s.procs[p].cpu >= 0 { PlacedCpu(s, s.procs[p].cpu); }
    hide Placed, Reachable;
  }

  /** At most one thread at a time is inside a section that holds p->lock. */
  lemma LockExcludes(s: State, p: nat, q: nat, j: nat)
    requires Reachable(s) && p < |s.procs| && q < |s.procs| && j < |s.procs|
    requires Holds(s.procs[p].pc, p, j) && Holds(s.procs[q].pc, q, j)
    ensures p == q
  {
    ReachableInv(s);
    PlacedAt(s, p);
    PlacedAt(s, q);
    hide Placed, Reachable;
  }

  /** Whatever the interleaving: every living or dead process but init has a
      parent that has not exited. */
  lemma NoOrphans(s: State, p: nat)
    requires Reachable(s) && p < |s.procs| && p != s.init
    requires Alive(s.procs[p].state) || s.procs[p].state.ZOMBIE?
    ensures 0 <= s.procs[p].parent < |s.procs| && s.procs[p].parent != p && Alive(s.procs[s.procs[p].parent].state)
  {
    ReachableInv(s);
    assert ParentOk(s, p);
    hide Placed, Reachable;
  }

  /** With wait_lock free, nobody sleeps in wait() while a child is a zombie. */
  lemma NoLostExit(s: State, p: nat, z: nat)
    requires Reachable(s) && p < |s.procs| && z < |s.procs| && s.waitLock == -1
    requires s.procs[z].state.ZOMBIE? && s.procs[z].parent == p
    ensures !Asleep(s.procs[p], OnProc(p))
  {
    ReachableInv(s);
    assert QuietOk(s, p);
    hide Placed, Reachable, Families, WaitLockOk;
  }

  /** A free slot is on no CPU: wait() never frees a process that has not
      finished its last swtch. */
  lemma FreeOffCpu(s: State, k: nat, c: nat)
    requires Reachable(s) && k < |s.procs| && c < |s.cpus| && s.procs[k].state.UNUSED?
    ensures s.cpus[c].proc != k
  {
    ReachableInv(s);
    PlacedAt(s, k);
    PlacedCpu(s, c);
    hide Placed, Reachable;
  }
}
