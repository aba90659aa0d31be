/** What the calls of kernel/proc.c have done when they return, and the life of a
    table slot over whole runs. */
module ProcRuns {
  import opened ProcTable
  import opened ProcSafety

  /** The process that action `a` steps, or -1. */
  function Caller(s: State, a: Action): (p: int) {
    if a.Go? && a.c < |s.cpus| && s.cpus[a.c].ctl.InProc? then s.cpus[a.c].ctl.p else -1
  }

  /** The step sees the failure or the kill that the model leaves open. */
  predicate Fails(a: Action) { a.Go? && a.op.Next? && a.op.flag }

  /** Action `a` is a wakeup on channel `ch` reaching slot k, or a kill of it. */
  predicate Rouses(s: State, a: Action, k: nat, ch: Chan) {
    var p := Caller(s, a);
    || Wakes(a, k, ch)
    || (a.Go? && a.op == Kill(k))
    || (0 <= p < |s.procs| && s.procs[p].pc.ExitWakeInit? && s.procs[p].pc.j == k && ch == OnProc(s.init))
    || (0 <= p < |s.procs| && s.procs[p].pc == ExitWake(k) && ch == ProcChan(s.procs[p].parent))
  }

  /** The critical section of wakeup(ch) for table entry k. */
  predicate Wakes(a: Action, k: nat, ch: Chan) {
    ch.Other? && ((a.Go? && a.op == Wakeup(k, ch.n)) || (a.Intr? && a.j == k && a.ch == ch.n))
  }

  /** Which action may take slot k from one state to another. */
  predicate Edge(s: State, a: Action, t: State, k: nat)
    requires k < |s.procs| && k < |t.procs|
  {
    var x, y, p := s.procs[k], t.procs[k], Caller(s, a);
    match y.state
    case UNUSED =>
      && 0 <= p < |s.procs| && y.parent == -1
      && ((x.state.USED? && s.procs[p].pc == ForkHeld(k) && Fails(a))
          || (x.state.ZOMBIE? && s.procs[p].pc.WaitChild? && s.procs[p].pc.k == k && x.parent == p && !Fails(a)))
    case USED => x.state.UNUSED? && a.Go? && a.op == Fork(k)
    case RUNNABLE =>
      || (x.state.USED? && 0 <= p < |s.procs| && s.procs[p].pc == ForkMark(k) && y.parent == p)
      || (x.state.RUNNING? && p == k && a.op.Yield?)
      || (x.state.SLEEPING? && Rouses(s, a, k, x.chan))
    case RUNNING => x.state.RUNNABLE? && a.Sched? && a.c < |s.cpus| && s.cpus[a.c].ctl == Hold(k) && y.cpu == a.c
    case SLEEPING => x.state.RUNNING? && p == k && (y.chan.Other? || y.chan == OnProc(k))
    case ZOMBIE => x.state.RUNNING? && p == k && x.pc.ExitLock?
  }

  /** What the edges need to know of the thread that takes them. */
  predicate Stands(s: State, a: Action, p: nat) {
    && a.Go? && a.c < |s.cpus| && p < |s.procs| && s.cpus[a.c].ctl == InProc(p)
    && Local(s.procs[p]) && PcOk(s, p) && !s.procs[p].pc.Parked?
  }

  lemma CallerStands(s: State, a: Action, t: State)
    requires Inv(s) && Step(s, a) == Live(t) && a.Go?
    ensures 0 <= Caller(s, a) && Stands(s, a, Caller(s, a)) && ProcStep(s, a.c, Caller(s, a), a.op) == Live(t)
  {
    PlacedCpu(s, a.c);
    PlacedAt(s, Caller(s, a));
    hide Placed, WaitLockOk, Families, Wakeful, ProcStep;
  }

  lemma RunEdge(s: State, a: Action, t: State, p: nat, k: nat)
    requires Stands(s, a, p) && s.procs[p].pc.Run? && !a.op.Yield? && RunStep(s, a.c, p, a.op) == Live(t) && k < |s.procs|
    ensures |t.procs| == |s.procs| && |t.cpus| == |s.cpus|
    ensures s.procs[k].state != t.procs[k].state ==> Edge(s, a, t, k)
  {
  }

  lemma ExitEdge(s: State, a: Action, t: State, p: nat, k: nat)
    requires Stands(s, a, p) && ExitStep(s, a.c, p) == Live(t) && k < |s.procs|
    ensures |t.procs| == |s.procs| && |t.cpus| == |s.cpus|
    ensures s.procs[k].state != t.procs[k].state ==> Edge(s, a, t, k)
  {
    hide PcOk;
  }

  lemma WaitEdge(s: State, a: Action, t: State, p: nat, k: nat)
    requires Stands(s, a, p) && WaitStep(s, a.c, p, a.op) == Live(t) && k < |s.procs|
    ensures |t.procs| == |s.procs| && |t.cpus| == |s.cpus|
    ensures s.procs[k].state != t.procs[k].state ==> Edge(s, a, t, k)
  {
  }

  lemma ThreadEdge(s: State, a: Action, t: State, p: nat, k: nat)
    requires Stands(s, a, p) && ProcStep(s, a.c, p, a.op) == Live(t) && k < |s.procs|
    ensures |t.procs| == |s.procs| && |t.cpus| == |s.cpus|
    ensures s.procs[k].state != t.procs[k].state ==> Edge(s, a, t, k)
  {
    hide RunStep, ExitStep, WaitStep;
    var pc := s.procs[p].pc;
    if a.op.Yield? {
    } else if pc.Run? {
      RunEdge(s, a, t, p, k);
    } else if pc.WaitScan? || pc.WaitChild? {
      WaitEdge(s, a, t, p, k);
    } else if HoldsWait(pc) {
      ExitEdge(s, a, t, p, k);
    }
  }

  /** The life of a slot, under every interleaving. */
  lemma StateEdge(s: State, a: Action, t: State, k: nat)
    requires Inv(s) && Step(s, a) == Live(t) && k < |s.procs|
    ensures |t.procs| == |s.procs| && |t.cpus| == |s.cpus|
    ensures s.procs[k].state != t.procs[k].state ==> Edge(s, a, t, k)
  {
    hide Inv, ProcStep;
    if a.Go? {
      CallerStands(s, a, t);
      ThreadEdge(s, a, t, Caller(s, a), k);
    }
  }

  // ----- locks and channels -----

  /** A slot's state or channel changes only if its lock is free or held by the CPU
      that acts. */
  predicate Guarded(s: State, a: Action, t: State, j: nat)
    requires j < |s.procs| && j < |t.procs|
  {
    || s.procs[j].lock < 0 || s.procs[j].lock == a.c
    || (t.procs[j].state == s.procs[j].state && t.procs[j].chan == s.procs[j].chan)
  }

  /** p->chan is set only from sleep() up to its return. */
  predicate ChanClear(x: Proc) { x.chan.NoChan? || x.pc.LeaveHold? || x.pc.Parked? || x.pc.ResumeHold? }

  lemma ThreadGuarded(s: State, a: Action, t: State, p: nat, j: nat)
    requires Stands(s, a, p) && s.procs[p].cpu == a.c && ProcStep(s, a.c, p, a.op) == Live(t) && j < |s.procs|
    ensures |t.procs| == |s.procs| && Guarded(s, a, t, j)
    ensures ChanClear(s.procs[j]) ==> ChanClear(t.procs[j])
  {
    hide RunStep, ExitStep, WaitStep;
    var pc := s.procs[p].pc;
    if a.op.Yield? {
    } else if pc.Run? {
      RunGuarded(s, a, t, p, j);
    } else if pc.WaitScan? || pc.WaitChild? {
      WaitGuarded(s, a, t, p, j);
    } else if HoldsWait(pc) {
      ExitGuarded(s, a, t, p, j);
    }
  }

  lemma RunGuarded(s: State, a: Action, t: State, p: nat, j: nat)
    requires Stands(s, a, p) && s.procs[p].pc.Run? && RunStep(s, a.c, p, a.op) == Live(t) && j < |s.procs|
    ensures |t.procs| == |s.procs| && Guarded(s, a, t, j) && (ChanClear(s.procs[j]) ==> ChanClear(t.procs[j]))
  {
    hide PcOk;
  }

  lemma WaitGuarded(s: State, a: Action, t: State, p: nat, j: nat)
    requires Stands(s, a, p) && s.procs[p].cpu == a.c && WaitStep(s, a.c, p, a.op) == Live(t) && j < |s.procs|
    ensures |t.procs| == |s.procs| && Guarded(s, a, t, j) && (ChanClear(s.procs[j]) ==> ChanClear(t.procs[j]))
  {
  }

  lemma ExitGuarded(s: State, a: Action, t: State, p: nat, j: nat)
    requires Stands(s, a, p) && ExitStep(s, a.c, p) == Live(t) && j < |s.procs|
    ensures |t.procs| == |s.procs| && Guarded(s, a, t, j) && (ChanClear(s.procs[j]) ==> ChanClear(t.procs[j]))
  {
    hide PcOk;
  }

  /** Nothing happens to a slot's state or channel behind the back of the CPU that
      holds its lock. */
  lemma LockRespected(s: State, a: Action, t: State, j: nat)
    requires Inv(s) && Step(s, a) == Live(t) && j < |s.procs|
    ensures |t.procs| == |s.procs| && Guarded(s, a, t, j)
    ensures ChanClear(s.procs[j]) ==> ChanClear(t.procs[j])
  {
    hide Placed, WaitLockOk, Families, Wakeful, ProcStep;
    if a.Go? {
      CallerStands(s, a, t);
      PlacedCpu(s, a.c);
      ThreadGuarded(s, a, t, Caller(s, a), j);
    } else if a.Sched? {
      PlacedCpu(s, a.c);
    }
  }

  // ----- what wait() has seen of the table -----

  /** havekids says whether the part of the table already scanned holds a child. */
  predicate KidsOk(s: State, p: nat)
    requires p < |s.procs|
  {
    var pc := s.procs[p].pc;
    pc.WaitScan? || pc.WaitChild? ==> (pc.kids <==> Seen(s, p, pc.k))
  }

  predicate IsChild(s: State, p: nat, j: nat) { j < |s.procs| && s.procs[j].parent == p }

  predicate Seen(s: State, p: nat, k: nat) { exists j :: 0 <= j < k && IsChild(s, p, j) }

  lemma SeenNext(s: State, p: nat, k: nat)
    ensures Seen(s, p, k + 1) <==> Seen(s, p, k) || IsChild(s, p, k)
  {
  }

  lemma SeenStill(s: State, t: State, p: nat, k: nat)
    requires |t.procs| == |s.procs| && forall j | 0 <= j < |s.procs| :: t.procs[j].parent == s.procs[j].parent
    ensures Seen(t, p, k) == Seen(s, p, k)
  {
    forall j ensures 0 <= j ==> IsChild(t, p, j) == IsChild(s, p, j) {}
  }

  /** No other thread changes a parent while q holds wait_lock. */
  lemma ThreadParents(s: State, a: Action, t: State, p: nat, q: nat, j: nat)
    requires Stands(s, a, p) && ProcStep(s, a.c, p, a.op) == Live(t) && q < |s.procs| && j < |s.procs|
    requires p != q && s.waitLock == q && !HoldsWait(s.procs[p].pc)
    ensures |t.procs| == |s.procs| && t.procs[j].parent == s.procs[j].parent && t.procs[q].pc == s.procs[q].pc
  {
    hide Local;
  }

  lemma SchedPc(s: State, a: Action, t: State, q: nat, j: nat)
    requires !a.Go? && Step(s, a) == Live(t) && q < |s.procs| && j < |s.procs|
    ensures |t.procs| == |s.procs| && (t.procs[q].pc == s.procs[q].pc || t.procs[q].pc.ResumeHold?)
    ensures t.procs[j].parent == s.procs[j].parent
  {
  }

  /** A thread outside wait() can only start it from the first entry. */
  lemma EntersWait(s: State, a: Action, t: State, p: nat, q: nat)
    requires Stands(s, a, p) && ProcStep(s, a.c, p, a.op) == Live(t) && q < |s.procs|
    requires !s.procs[p].pc.WaitScan? && !s.procs[p].pc.WaitChild?
    ensures |t.procs| == |s.procs|
    ensures t.procs[q].pc.WaitScan? || t.procs[q].pc.WaitChild? ==>
              if p == q then t.procs[q].pc == WaitScan(0, false) else t.procs[q].pc == s.procs[q].pc
  {
    hide PcOk, ExitStep, WaitStep;
    if HoldsWait(s.procs[p].pc) {
      ExitIs(s, a, t, p);
      ExitPc(s, a, t, p, q);
    }
  }

  lemma ExitPc(s: State, a: Action, t: State, p: nat, q: nat)
    requires Stands(s, a, p) && ExitStep(s, a.c, p) == Live(t) && q < |s.procs|
    ensures |t.procs| == |s.procs| && !t.procs[p].pc.WaitScan? && !t.procs[p].pc.WaitChild?
    ensures p != q ==> t.procs[q].pc == s.procs[q].pc
  {
    hide PcOk, Local;
  }

  lemma ScanKids(s: State, a: Action, t: State, p: nat, q: nat)
    requires Stands(s, a, p) && WaitStep(s, a.c, p, a.op) == Live(t) && KidsOk(s, p) && q < |s.procs|
    ensures |t.procs| == |s.procs| && KidsOk(t, p) && (p != q ==> t.procs[q].pc == s.procs[q].pc)
  {
    hide Local, Seen;
    var pc := s.procs[p].pc;
    SeenNext(s, p, pc.k);
    if t.procs[p].pc.WaitScan? || t.procs[p].pc.WaitChild? { SeenStill(s, t, p, t.procs[p].pc.k); }
  }

  lemma StepKids(s: State, a: Action, t: State, q: nat)
    requires Inv(s) && Step(s, a) == Live(t) && q < |s.procs| && KidsOk(s, q)
    ensures |t.procs| == |s.procs| && KidsOk(t, q)
  {
    hide Placed, WaitLockOk, Families, Wakeful, ProcStep, Seen, SchedStep;
    if a.Go? {
      CallerStands(s, a, t);
      var p := Caller(s, a);
      if p == q && (s.procs[q].pc.WaitScan? || s.procs[q].pc.WaitChild?) {
        WaitIs(s, a, t, p);
        ScanKids(s, a, t, p, q);
      } else if p == q {
        EntersWait(s, a, t, p, q);
        NothingSeen(t, q);
      } else {
        OthersKids(s, a, t, p, q);
      }
    } else {
      SchedPc(s, a, t, q, q);
      forall j | 0 <= j < |s.procs| ensures t.procs[j].parent == s.procs[j].parent { SchedPc(s, a, t, q, j); }
      if t.procs[q].pc.WaitScan? || t.procs[q].pc.WaitChild? { SeenStill(s, t, q, t.procs[q].pc.k); }
    }
  }

  lemma NothingSeen(s: State, p: nat)
    ensures !Seen(s, p, 0)
  {
  }

  lemma WaitIs(s: State, a: Action, t: State, p: nat)
    requires Stands(s, a, p) && ProcStep(s, a.c, p, a.op) == Live(t) && (s.procs[p].pc.WaitScan? || s.procs[p].pc.WaitChild?)
    ensures WaitStep(s, a.c, p, a.op) == Live(t)
  {
    hide WaitStep, Local, PcOk;
  }

  lemma OthersKids(s: State, a: Action, t: State, p: nat, q: nat)
    requires WaitLockOk(s) && Stands(s, a, p) && ProcStep(s, a.c, p, a.op) == Live(t) && q < |s.procs| && KidsOk(s, q) && p != q
    ensures |t.procs| == |s.procs| && KidsOk(t, q)
  {
    hide ProcStep, Seen, Local, PcOk;
    if s.procs[p].pc.WaitScan? || s.procs[p].pc.WaitChild? {
      WaitIs(s, a, t, p);
      WaitStill(s, a, t, p, q);
    } else {
      EntersWait(s, a, t, p, q);
      if t.procs[q].pc.WaitScan? || t.procs[q].pc.WaitChild? {
        assert HoldsWait(s.procs[q].pc) && !HoldsWait(s.procs[p].pc);
        forall j | 0 <= j < |s.procs| ensures t.procs[j].parent == s.procs[j].parent { ThreadParents(s, a, t, p, q, j); }
        SeenStill(s, t, q, t.procs[q].pc.k);
      }
    }
  }

  lemma WaitStill(s: State, a: Action, t: State, p: nat, q: nat)
    requires WaitLockOk(s) && Stands(s, a, p) && WaitStep(s, a.c, p, a.op) == Live(t) && q < |s.procs| && p != q
    ensures |t.procs| == |s.procs| && !t.procs[q].pc.WaitScan? && !t.procs[q].pc.WaitChild?
  {
    hide Local;
    assert HoldsWait(s.procs[p].pc) && !HoldsWait(s.procs[q].pc);
  }

  // ----- runs -----

  /** The states of a run from boot, and the actions between them. */
  ghost predicate IsRun(ss: seq<State>, acts: seq<Action>) {
    && |ss| == |acts| + 1
    && (exists nproc: nat, ncpu: nat, init: nat :: init < nproc && ss[0] == Boot(nproc, ncpu, init))
    && forall i | 0 <= i < |acts| :: Step(ss[i], acts[i]) == Live(ss[i + 1])
  }

  predicate Settled(s: State) { forall p | 0 <= p < |s.procs| :: KidsOk(s, p) && ChanClear(s.procs[p]) }

  lemma {:induction false} RunKeeps(ss: seq<State>, acts: seq<Action>, i: nat)
    requires IsRun(ss, acts) && i < |ss|
    ensures Inv(ss[i]) && Settled(ss[i]) && |ss[i].procs| == |ss[0].procs|
  {
    hide Step, Inv;
    if i == 0 {
      var nproc: nat, ncpu: nat, init: nat :| init < nproc && ss[0] == Boot(nproc, ncpu, init);
      BootInv(nproc, ncpu, init);
    } else {
      RunKeeps(ss, acts, i - 1);
      assert Step(ss[i - 1], acts[i - 1]) == Live(ss[i]);
      StepInv(ss[i - 1], acts[i - 1], ss[i]);
      if |ss[0].procs| > 0 { StateEdge(ss[i - 1], acts[i - 1], ss[i], 0); }
      forall p | 0 <= p < |ss[i].procs| ensures KidsOk(ss[i], p) && ChanClear(ss[i].procs[p]) {
        StepKids(ss[i - 1], acts[i - 1], ss[i], p);
        LockRespected(ss[i - 1], acts[i - 1], ss[i], p);
      }
    }
  }

  // ----- what the calls have done when they return -----

  /** Slots other than the caller's and k are as they were. */
  predicate OnlyTouches(s: State, t: State, p: nat, k: nat) {
    |t.procs| == |s.procs| && forall j | 0 <= j < |s.procs| && j != p && j != k :: t.procs[j] == s.procs[j]
  }

  predicate Childless(s: State, p: nat) { forall j | 0 <= j < |s.procs| :: s.procs[j].parent != p }

  /** wait() returns when it meets a zombie child, whose slot it then frees, unless
      its status cannot be copied out: the child is then left to be waited for
      again. It returns -1 at the end of the table if it has been killed or has no
      child. */
  lemma WaitReturns(ss: seq<State>, acts: seq<Action>, i: nat, p: nat)
    requires IsRun(ss, acts) && i < |acts| && p == Caller(ss[i], acts[i]) && p < |ss[i].procs|
    requires ss[i].procs[p].pc.WaitScan? || ss[i].procs[p].pc.WaitChild?
    ensures |ss[i + 1].procs| == |ss[i].procs| && (ss[i].procs[p].pc.WaitChild? ==> ss[i].procs[p].pc.k < |ss[i].procs|)
    ensures var s, pc := ss[i], ss[i].procs[p].pc;
            ss[i + 1].procs[p].pc.Run? <==>
              if pc.WaitChild? then s.procs[pc.k].state.ZOMBIE?
              else pc.k >= |s.procs| && (Fails(acts[i]) || Childless(s, p))
    ensures var s, t, pc := ss[i], ss[i + 1], ss[i].procs[p].pc;
            t.procs[p].pc.Run? && pc.WaitChild? ==>
              && t.waitLock == -1 && s.procs[pc.k].parent == p
              && OnlyTouches(s, t, p, pc.k) && t.procs[pc.k].lock == -1
              && t.procs[pc.k].state == (if Fails(acts[i]) then ZOMBIE else UNUSED)
              && t.procs[pc.k].parent == (if Fails(acts[i]) then p else -1)
              && (!Fails(acts[i]) ==> t.procs[pc.k].chan.NoChan?)
    ensures var s, t := ss[i], ss[i + 1];
            t.procs[p].pc.Run? && s.procs[p].pc.WaitScan? ==> t.waitLock == -1 && OnlyTouches(s, t, p, p)
  {
    hide Inv, ProcStep, Step, Seen, Local;
    RunKeeps(ss, acts, i);
    var s, t, a := ss[i], ss[i + 1], acts[i];
    assert Step(s, a) == Live(t);
    CallerStands(s, a, t);
    WaitIs(s, a, t, p);
    assert KidsOk(s, p);
    if s.procs[p].pc.k >= |s.procs| { SeenAll(s, p, s.procs[p].pc.k); }
    hide Childless;
  }

  lemma SeenAll(s: State, p: nat, k: nat)
    requires k >= |s.procs|
    ensures Seen(s, p, k) <==> !Childless(s, p)
  {
    forall j | 0 <= j < |s.procs| ensures IsChild(s, p, j) <==> s.procs[j].parent == p {}
  }

  /** How far the scan of wait() is from its end. */
  function ScanLeft(pc: Pc, n: nat): (m: int) {
    if pc.WaitScan? then 2 * (n - pc.k) + 1 else if pc.WaitChild? then 2 * (n - pc.k) else -1
  }

  /** Otherwise wait() goes on: to the next entry, into a child's lock, or to sleep
      on its own address, which it does only with a child left to wait for and
      none of its children a zombie. */
  lemma WaitGoesOn(ss: seq<State>, acts: seq<Action>, i: nat, p: nat)
    requires IsRun(ss, acts) && i < |acts| && p == Caller(ss[i], acts[i]) && p < |ss[i].procs|
    requires ss[i].procs[p].pc.WaitScan? || ss[i].procs[p].pc.WaitChild?
    ensures p < |ss[i + 1].procs|
    ensures var s, y := ss[i], ss[i + 1].procs[p];
            && (y.pc.Run? || y.pc.WaitScan? || y.pc.WaitChild? || y.pc == LeaveHold(WantWait))
            && (y.pc.WaitScan? || y.pc.WaitChild? ==> 0 <= ScanLeft(y.pc, |s.procs|) < ScanLeft(s.procs[p].pc, |s.procs|))
            && (y.pc.LeaveHold? ==>
                  && Asleep(y, OnProc(p))
                  && !Childless(s, p)
                  && forall j | 0 <= j < |s.procs| && s.procs[j].parent == p :: !s.procs[j].state.ZOMBIE?)
  {
    hide Inv, ProcStep, Step, Local;
    RunKeeps(ss, acts, i);
    var s, t, a := ss[i], ss[i + 1], acts[i];
    assert Step(s, a) == Live(t);
    CallerStands(s, a, t);
    WaitIs(s, a, t, p);
    assert KidsOk(s, p);
    ScanAt(s, p);
    if s.procs[p].pc.k >= |s.procs| { SeenAll(s, p, s.procs[p].pc.k); }
  }

  lemma ScanAt(s: State, p: nat)
    requires Inv(s) && p < |s.procs|
    ensures ScanOk(s, p) && ExitOk(s, p)
  {
    hide Placed, WaitLockOk, ScanOk, ExitOk;
  }

  /** fork() returns with a runnable child of its own, or with the slot free
      again. */
  lemma ForkReturns(ss: seq<State>, acts: seq<Action>, i: nat, p: nat)
    requires IsRun(ss, acts) && i < |acts| && p == Caller(ss[i], acts[i]) && p < |ss[i].procs|
    requires InFork(ss[i].procs[p].pc)
    ensures |ss[i + 1].procs| == |ss[i].procs| && ss[i].procs[p].pc.child < |ss[i].procs|
    ensures var s, t, pc := ss[i], ss[i + 1], ss[i].procs[p].pc;
            var y := t.procs[pc.child];
            && (InFork(t.procs[p].pc) ==> t.procs[p].pc.child == pc.child)
            && (t.procs[p].pc.Run? ==>
                  && OnlyTouches(s, t, p, pc.child) && y.lock == -1
                  && y.state == (if Fails(acts[i]) && pc.ForkHeld? then UNUSED else RUNNABLE)
                  && y.parent == (if Fails(acts[i]) && pc.ForkHeld? then -1 else p))
  {
    hide Inv, Step, Local;
    RunKeeps(ss, acts, i);
    var s, t, a := ss[i], ss[i + 1], acts[i];
    assert Step(s, a) == Live(t);
    CallerStands(s, a, t);
    LockAt(s, s.procs[p].pc.child);
  }

  lemma LockAt(s: State, j: nat)
    requires Inv(s) && j < |s.procs|
    ensures -1 <= s.procs[j].lock
  {
    PlacedAt(s, j);
    hide Placed, WaitLockOk, Families, Wakeful;
  }

  /** How far exit() is from its end, in a table of n: pairs, compared by their first
      part and then by the second. */
  function ExitLeft(pc: Pc, n: nat): (m: (nat, nat)) {
    match pc
    case ExitReparent(k) => (if k < n then 2 * (n - k) + 3 else 2, 0)
    case ExitWakeInit(k, j) => (if k < n then 2 * (n - k) + 2 else 3, if j < n then n - j else 0)
    case ExitWake(j) => (1, if j < n then n - j else 0)
    case ExitLock => (0, 1)
    case _ => (0, 0)
  }

  predicate Less(a: (nat, nat), b: (nat, nat)) { a.0 < b.0 || (a.0 == b.0 && a.1 < b.1) }

  /** exit() ends in a zombie without children, whose parent is not asleep in
      wait(); it does not return. */
  lemma ExitEnds(ss: seq<State>, acts: seq<Action>, i: nat, p: nat)
    requires IsRun(ss, acts) && i < |acts| && p == Caller(ss[i], acts[i]) && p < |ss[i].procs|
    requires HoldsWait(ss[i].procs[p].pc) && !ss[i].procs[p].pc.WaitScan? && !ss[i].procs[p].pc.WaitChild?
    ensures |ss[i + 1].procs| == |ss[i].procs|
    ensures Less(ExitLeft(ss[i + 1].procs[p].pc, |ss[i].procs|), ExitLeft(ss[i].procs[p].pc, |ss[i].procs|))
    ensures var t := ss[i + 1];
            || (HoldsWait(t.procs[p].pc) && !t.procs[p].pc.WaitScan? && !t.procs[p].pc.WaitChild?)
            || (&& t.procs[p].pc == LeaveHold(Run) && t.procs[p].state.ZOMBIE? && t.waitLock == -1
                && (forall j | 0 <= j < |t.procs| :: t.procs[j].parent != p)
                && (0 <= t.procs[p].parent < |t.procs| ==> !InWait(t, t.procs[p].parent)))
  {
    hide Inv, ProcStep, Step, Local, PcOk;
    RunKeeps(ss, acts, i);
    var s, t, a := ss[i], ss[i + 1], acts[i];
    assert Step(s, a) == Live(t);
    CallerStands(s, a, t);
    ExitIs(s, a, t, p);
    ScanAt(s, p);
    hide ExitOk, ScanOk;
  }

  lemma ExitIs(s: State, a: Action, t: State, p: nat)
    requires Stands(s, a, p) && ProcStep(s, a.c, p, a.op) == Live(t)
    requires HoldsWait(s.procs[p].pc) && !s.procs[p].pc.WaitScan? && !s.procs[p].pc.WaitChild?
    ensures ExitStep(s, a.c, p) == Live(t)
  {
    hide ExitStep, Local, PcOk;
  }

  /** The scheduler leaves a process it has locked only by running it, unless it is
      not runnable. */
  lemma SchedulerRuns(s: State, a: Action, t: State, k: nat)
    requires Inv(s) && Step(s, a) == Live(t) && a.Sched? && a.c < |s.cpus| && s.cpus[a.c].ctl == Hold(k)
    ensures k < |s.procs| == |t.procs| && a.c < |t.cpus|
    ensures t.cpus[a.c].ctl == if s.procs[k].state.RUNNABLE? then InProc(k) else Scan
    ensures s.procs[k].state.RUNNABLE? ==> t.procs[k].state.RUNNING? && t.procs[k].cpu == a.c && t.cpus[a.c].proc == k
    ensures !s.procs[k].state.RUNNABLE? ==> t.procs[k].state == s.procs[k].state && t.procs[k].lock == -1
  {
    hide Placed, WaitLockOk, Families, Wakeful;
  }

  // ----- one exit for each child that wait returns -----

  /** Action i is the step in which wait() of process p takes child k. */
  predicate Collects(s: State, a: Action, p: nat, k: nat) {
    && p == Caller(s, a) && p < |s.procs| && k < |s.procs| && s.procs[p].pc.WaitChild? && s.procs[p].pc.k == k
    && s.procs[k].state.ZOMBIE? && !Fails(a)
  }

  lemma {:induction false} Flips(f: seq<bool>, i: nat, j: nat) returns (m: nat)
    requires i < j < |f| && f[i] != f[j]
    ensures i <= m < j && f[m] == f[i] && f[m + 1] == f[j]
  {
    if f[j - 1] == f[i] { m := j - 1; } else { m := Flips(f, i, j - 1); }
  }

  /** Some step between two of the run takes slot k out of, or into, state `st`. */
  lemma Crosses(ss: seq<State>, acts: seq<Action>, k: nat, st: PState, i: nat, j: nat) returns (m: nat)
    requires IsRun(ss, acts) && i < j < |ss| && k < |ss[0].procs|
    requires forall n | 0 <= n < |ss| :: |ss[n].procs| == |ss[0].procs|
    requires (ss[i].procs[k].state == st) != (ss[j].procs[k].state == st)
    ensures i <= m < j && ss[m].procs[k].state != ss[m + 1].procs[k].state
    ensures (ss[m].procs[k].state == st) == (ss[i].procs[k].state == st)
    ensures (ss[m + 1].procs[k].state == st) == (ss[j].procs[k].state == st)
    ensures Edge(ss[m], acts[m], ss[m + 1], k)
  {
    hide Edge, Inv, Step, Boot;
    var f := seq(|ss|, n requires 0 <= n < |ss| => ss[n].procs[k].state == st);
    m := Flips(f, i, j);
    RunKeeps(ss, acts, m);
    assert Step(ss[m], acts[m]) == Live(ss[m + 1]);
    StateEdge(ss[m], acts[m], ss[m + 1], k);
  }

  /** Between two returns of wait() with the same slot, a fork took the slot and
      the process in it exited. */
  lemma OneReturnPerExit(ss: seq<State>, acts: seq<Action>, i: nat, j: nat, p: nat, q: nat, k: nat) returns (f: nat, e: nat)
    requires IsRun(ss, acts) && i < j < |acts| && Collects(ss[i], acts[i], p, k) && Collects(ss[j], acts[j], q, k)
    ensures i < f < e < j && k < |ss[f].procs| && k < |ss[f + 1].procs| && k < |ss[e].procs| && k < |ss[e + 1].procs|
    ensures acts[f].Go? && acts[f].op == Fork(k) && ss[f].procs[k].state.UNUSED? && ss[f + 1].procs[k].state.USED?
    ensures Caller(ss[e], acts[e]) == k && ss[e].procs[k].pc.ExitLock? && ss[e + 1].procs[k].state.ZOMBIE?
  {
    hide Inv, Step, Boot;
    forall n | 0 <= n < |ss| ensures |ss[n].procs| == |ss[0].procs| { RunKeeps(ss, acts, n); }
    WaitReturns(ss, acts, i, p);
    assert ss[i + 1].procs[k].state.UNUSED?;
    e := Crosses(ss, acts, k, ZOMBIE, i + 1, j);
    f := Crosses(ss, acts, k, UNUSED, i + 1, e);
  }

  // ----- wakeup and kill -----

  /** A wakeup on a channel, once past a slot, has left nobody asleep there. */
  lemma WakeupReaches(s: State, a: Action, t: State, q: nat, ch: Chan)
    requires Step(s, a) == Live(t) && Wakes(a, q, ch)
    ensures q < |t.procs| && !Asleep(t.procs[q], ch)
  {
  }

  /** After a whole pass of wakeup(ch) over the table, everybody who was asleep on
      ch when it began has been awake since. */
  lemma WakeupPass(ss: seq<State>, acts: seq<Action>, i: nat, j: nat, ch: Chan, q: nat) returns (m: nat)
    requires IsRun(ss, acts) && i <= j < |ss| && q < |ss[i].procs| && Asleep(ss[i].procs[q], ch)
    requires forall k | 0 <= k < |ss[i].procs| :: ss[i].procs[k].state.RUNNING? || exists n :: i <= n < j && Wakes(acts[n], k, ch)
    ensures i < m <= j && q < |ss[m].procs| && !Asleep(ss[m].procs[q], ch)
  {
    hide Step;
    var n :| i <= n < j && Wakes(acts[n], q, ch);
    WakeupReaches(ss[n], acts[n], ss[n + 1], q, ch);
    m := n + 1;
  }

  /** kill() does not leave its target asleep. */
  lemma KillWakes(s: State, a: Action, t: State, q: nat)
    requires Step(s, a) == Live(t) && a.Go? && a.op == Kill(q)
    ensures q < |t.procs| && !t.procs[q].state.SLEEPING?
  {
  }
}
