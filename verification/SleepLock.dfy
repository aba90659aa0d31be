/** One sleep-lock (kernel/sleeplock.c) shared by any number of processes, with
    sleep, wakeup and kill of kernel/proc.c at the grain of single spin-lock
    operations. Process p has pid p + 1. */
module SleepLock {

  datatype Run = RUNNING | SLEEPING | RUNNABLE

  /** `Held` and later points of each call hold the inner spin-lock. */
  datatype Pc =
    | Idle                    // outside
    | Want                    // acquiresleep: wants the inner lock, at first or after a sleep
    | Test                    // holds the inner lock, about to test `locked`
    | SleepLockSelf           // in sleep(): wants its own p->lock
    | SleepDrop               // holds both locks, about to drop the inner one
    | SleepMark               // holds p->lock, about to become SLEEPING
    | SwitchOut               // SLEEPING, p->lock still held up to the scheduler
    | Parked                  // off every CPU
    | Resumed                 // scheduled again, p->lock held
    | Taken                   // set `locked`, about to drop the inner lock
    | Critical                // returned from acquiresleep
    | WantRelease             // releasesleep: wants the inner lock
    | Clear                   // about to clear `locked`
    | Wake(j: nat)            // in wakeup, about to look at process j
    | Drop                    // about to drop the inner lock

  /** `lock` is p->lock held on p's behalf, `chan` that p->chan is this lock. */
  datatype Proc = Proc(run: Run, chan: bool, lock: bool, pc: Pc)

  datatype State = State(procs: seq<Proc>, inner: int, locked: bool, pid: nat)

  /** A process takes its next step, the scheduler picks a process, or someone
      calls kill or wakes an unrelated channel. */
  datatype Action = Go(p: nat) | Pick(p: nat) | Kill(p: nat)

  datatype Outcome = Live(s: State) | Stuck

  function SetProc(s: State, p: nat, x: Proc): (t: State)
    requires p < |s.procs|
  {
    s.(procs := s.procs[p := x])
  }

  function At(s: State, p: nat, pc: Pc): (t: State)
    requires p < |s.procs|
  {
    SetProc(s, p, s.procs[p].(pc := pc))
  }

  function Step(s: State, a: Action): (o: Outcome) {
    if a.p >= |s.procs| then Stuck
    else
      var x := s.procs[a.p];
      match a
      case Pick(p) =>
        if x.run.RUNNABLE? && !x.lock
        then Live(SetProc(s, p, x.(run := RUNNING, lock := true, pc := Resumed))) else Stuck
      case Kill(p) =>
        if x.lock then Stuck
        else if x.run.SLEEPING? then Live(SetProc(s, p, x.(run := RUNNABLE))) else Live(s)
      case Go(p) => ProcStep(s, p)
  }

  function ProcStep(s: State, p: nat): (o: Outcome)
    requires p < |s.procs|
  {
    var x := s.procs[p];
    match x.pc
    case Idle => Live(At(s, p, Want))
    case Want => if s.inner < 0 then Live(At(s, p, Test).(inner := p)) else Stuck
    case Test =>
      if s.locked then Live(At(s, p, SleepLockSelf))
      else Live(At(s, p, Taken).(locked := true, pid := p + 1))
    case SleepLockSelf => if !x.lock then Live(SetProc(s, p, x.(lock := true, pc := SleepDrop))) else Stuck
    case SleepDrop => Live(At(s, p, SleepMark).(inner := -1))
    case SleepMark => Live(SetProc(s, p, x.(run := SLEEPING, chan := true, pc := SwitchOut)))
    case SwitchOut => Live(SetProc(s, p, x.(lock := false, pc := Parked)))
    case Parked => Stuck
    case Resumed => Live(SetProc(s, p, x.(chan := false, lock := false, pc := Want)))
    case Taken => Live(At(s, p, Critical).(inner := -1))
    case Critical => Live(At(s, p, WantRelease))
    case WantRelease => if s.inner < 0 then Live(At(s, p, Clear).(inner := p)) else Stuck
    case Clear => Live(At(s, p, Wake(0)).(locked := false, pid := 0))
    case Wake(j) =>
      if j >= |s.procs| then Live(At(s, p, Drop))
      else if j == p then Live(At(s, p, Wake(j + 1)))
      else if s.procs[j].lock then Stuck
      else Live(At(SetProc(s, j, Woken(s.procs[j])), p, Wake(j + 1)))
    case Drop => Live(At(s, p, Idle).(inner := -1))
  }

  function Woken(y: Proc): (z: Proc) {
    if y.run.SLEEPING? && y.chan then y.(run := RUNNABLE) else y
  }

  function Trace(s: State, acts: seq<Action>): (o: Outcome) {
    if acts == [] then Live(s)
    else
      match Trace(s, acts[..|acts| - 1])
      case Live(t) => Step(t, acts[|acts| - 1])
      case Stuck => Stuck
  }

  /** initsleeplock, with every process outside. */
  function Init(n: nat): (s: State) {
    State(seq(n, _ => Proc(RUNNING, false, false, Idle)), -1, false, 0)
  }

  // ----- the invariant -----

  predicate HoldsInner(pc: Pc) {
    pc.Test? || pc.SleepLockSelf? || pc.SleepDrop? || pc.Taken? || pc.Clear? || pc.Wake? || pc.Drop?
  }

  predicate HoldsSelf(pc: Pc) { pc.SleepDrop? || pc.SleepMark? || pc.SwitchOut? || pc.Resumed? }

  /** From setting `locked` to clearing it. */
  predicate Owns(pc: Pc) { pc.Taken? || pc.Critical? || pc.WantRelease? || pc.Clear? }

  /** Asleep on the lock, or past the point where it will be. */
  predicate Sleeper(x: Proc) { x.pc.SleepMark? || x.run.SLEEPING? }

  predicate ProcOk(s: State, p: nat)
    requires p < |s.procs|
  {
    var x := s.procs[p];
    && (HoldsInner(x.pc) <==> s.inner == p)
    && (x.lock <==> HoldsSelf(x.pc))
    && (x.run.SLEEPING? ==> x.pc.SwitchOut? || x.pc.Parked?)
    && (x.chan <==> x.pc.SwitchOut? || x.pc.Parked? || x.pc.Resumed?)
    && (x.run.RUNNABLE? ==> x.pc.Parked?)
    && (x.pc.SwitchOut? ==> x.run.SLEEPING?)
    && (Owns(x.pc) <==> s.locked && s.pid == p + 1)
    && (x.pc.SleepLockSelf? || x.pc.SleepDrop? ==> s.locked)
    && (x.pc.Wake? || x.pc.Drop? ==> !s.locked)
  }

  /** A sleeper is waiting for a lock that is taken, or its wakeup is coming. */
  predicate WakeOk(s: State, p: nat)
    requires p < |s.procs|
  {
    Sleeper(s.procs[p]) ==>
      s.locked || (0 <= s.inner < |s.procs| && s.procs[s.inner].pc.Wake? && s.procs[s.inner].pc.j <= p)
  }

  predicate Inv(s: State) {
    && -1 <= s.inner < |s.procs|
    && (s.locked ==> 1 <= s.pid <= |s.procs|)
    && (!s.locked ==> s.pid == 0)
    && (forall p :: 0 <= p < |s.procs| ==> ProcOk(s, p))
    && (forall p :: 0 <= p < |s.procs| ==> WakeOk(s, p))
  }

  lemma InvAt(s: State, p: nat)
    requires Inv(s) && p < |s.procs|
    ensures ProcOk(s, p) && WakeOk(s, p)
  {
  }

  lemma InvLock(s: State)
    requires Inv(s)
    ensures -1 <= s.inner < |s.procs| && (s.locked ==> 1 <= s.pid <= |s.procs|) && (!s.locked ==> s.pid == 0)
  {
    hide ProcOk, WakeOk;
  }

  lemma GoActor(s: State, p: nat, t: State)
    requires Inv(s) && p < |s.procs| && ProcStep(s, p) == Live(t)
    ensures |t.procs| == |s.procs| && ProcOk(t, p)
  {
    hide Inv, WakeOk;
    InvAt(s, p);
    InvLock(s);
    if s.locked { InvAt(s, s.pid - 1); }
  }

  lemma StepActor(s: State, a: Action, t: State)
    requires Inv(s) && Step(s, a) == Live(t)
    ensures |t.procs| == |s.procs| && ProcOk(t, a.p)
  {
    hide Inv, WakeOk, ProcStep;
    InvAt(s, a.p);
    if a.Go? { GoActor(s, a.p, t); }
  }

  /** What an action leaves of everyone but the process it is about. */
  lemma StepFrame(s: State, a: Action, t: State, q: nat)
    requires Step(s, a) == Live(t) && q < |s.procs| && q != a.p && ProcOk(s, a.p) && s.inner >= -1
    ensures |t.procs| == |s.procs|
    ensures t.procs[q] == s.procs[q] || (t.procs[q] == Woken(s.procs[q]) && !s.procs[q].lock)
    ensures (t.inner == s.inner) || (t.inner != q && s.inner != q)
    ensures (t.locked == s.locked && t.pid == s.pid) || (!s.locked && t.pid == a.p + 1) || (Owns(s.procs[a.p].pc) && t.pid == 0 && s.inner == a.p)
  {
    hide WakeOk, Woken;
  }

  lemma StepOther(s: State, a: Action, t: State, q: nat)
    requires Inv(s) && Step(s, a) == Live(t) && q < |s.procs| && q != a.p
    ensures |t.procs| == |s.procs| && ProcOk(t, q)
  {
    InvAt(s, q);
    InvAt(s, a.p);
    StepFrame(s, a, t, q);
    hide Inv, WakeOk, Step;
  }

  lemma StepWake(s: State, a: Action, t: State, q: nat)
    requires Inv(s) && Step(s, a) == Live(t) && q < |s.procs| && |t.procs| == |s.procs|
    ensures WakeOk(t, q)
  {
    InvAt(s, q);
    InvAt(s, a.p);
    hide Inv, Owns;
  }

  lemma StepInv(s: State, a: Action, t: State)
    requires Inv(s) && Step(s, a) == Live(t)
    ensures Inv(t)
  {
    InvAt(s, a.p);
    forall q | 0 <= q < |t.procs| ensures ProcOk(t, q) && WakeOk(t, q) {
      if q == a.p { StepActor(s, a, t); } else { StepOther(s, a, t, q); }
      StepWake(s, a, t, q);
    }
    hide WakeOk;
  }

  lemma {:induction false} TraceInv(n: nat, acts: seq<Action>)
    ensures Trace(Init(n), acts).Live? ==> Inv(Trace(Init(n), acts).s)
  {
    if acts != [] && Trace(Init(n), acts).Live? {
      TraceInv(n, acts[..|acts| - 1]);
      StepInv(Trace(Init(n), acts[..|acts| - 1]).s, acts[|acts| - 1], Trace(Init(n), acts).s);
    }
    hide Step;
  }

  // ----- the promises -----

  /** At most one process is between acquiresleep and releasesleep, and
      holdingsleep, evaluated under the inner lock, is true of exactly that one. */
  lemma MutualExclusion(n: nat, acts: seq<Action>, s: State, p: nat, q: nat)
    requires Trace(Init(n), acts) == Live(s) && p < |s.procs| && q < |s.procs|
    ensures s.procs[p].pc.Critical? && s.procs[q].pc.Critical? ==> p == q
    ensures s.inner == -1 ==> (s.locked && s.pid == p + 1 <==> s.procs[p].pc.Critical? || s.procs[p].pc.WantRelease?)
  {
    TraceInv(n, acts);
    InvAt(s, p);
    InvAt(s, q);
    hide Trace, Inv, Init;
  }

  /** No wakeup is lost: with the inner lock free and the sleep-lock not taken,
      nobody sleeps on it, whoever was killed meanwhile. */
  lemma NoLostWakeup(n: nat, acts: seq<Action>, s: State, p: nat)
    requires Trace(Init(n), acts) == Live(s) && p < |s.procs| && s.inner == -1 && !s.locked
    ensures !s.procs[p].run.SLEEPING?
  {
    TraceInv(n, acts);
    InvAt(s, p);
    hide Trace, Inv, Init;
  }

  predicate Acquiring(pc: Pc) {
    || pc.Want? || pc.Test? || pc.SleepLockSelf? || pc.SleepDrop? || pc.SleepMark? || pc.SwitchOut?
    || pc.Parked? || pc.Resumed? || pc.Taken?
  }

  /** How many steps of its own releasesleep has left, with n processes. */
  function Left(pc: Pc, n: nat): (k: nat) {
    match pc
    case WantRelease => n + 4
    case Clear => n + 3
    case Wake(j) => if j < n then n - j + 2 else 2
    case Drop => 1
    case _ => 0
  }

  predicate Releasing(pc: Pc) { pc.WantRelease? || pc.Clear? || pc.Wake? || pc.Drop? }

  lemma OwnStep(s: State, p: nat, t: State)
    requires p < |s.procs| && ProcOk(s, p) && ProcStep(s, p) == Live(t)
    ensures |t.procs| == |s.procs|
    ensures Acquiring(s.procs[p].pc) ==>
              Acquiring(t.procs[p].pc) || (t.procs[p].pc.Critical? && t.locked && t.pid == p + 1 && !t.procs[p].chan)
    ensures s.procs[p].pc.Test? ==> (t.procs[p].pc.Taken? <==> !s.locked)
    ensures s.procs[p].pc.Critical? ==> t.procs[p].pc.WantRelease?
    ensures Releasing(s.procs[p].pc) ==> Releasing(t.procs[p].pc) || (t.procs[p].pc.Idle? && t.inner == -1 && !t.locked)
    ensures Releasing(s.procs[p].pc) ==> Left(t.procs[p].pc, |s.procs|) == Left(s.procs[p].pc, |s.procs|) - 1
  {
  }

  /** Another process's step, or a wakeup, leaves a process where it is; being
      picked, it goes on inside acquiresleep. */
  lemma PcStays(s: State, a: Action, t: State, p: nat)
    requires p < |s.procs| && a.p < |s.procs| && ProcOk(s, a.p) && s.inner >= -1 && Step(s, a) == Live(t) && a != Go(p)
    ensures |t.procs| == |s.procs|
    ensures t.procs[p].pc == s.procs[p].pc || (s.procs[p].pc.Parked? && t.procs[p].pc.Resumed?)
  {
    if a.p != p { StepFrame(s, a, t, p); }
    hide ProcStep;
  }

  /** acquiresleep takes a lock it finds free, and returns only with the lock
      taken under its own pid; a kill does not leave it asleep. */
  lemma AcquireReturns(n: nat, acts: seq<Action>, s: State, a: Action, t: State, p: nat)
    requires Trace(Init(n), acts) == Live(s) && Step(s, a) == Live(t) && p < |s.procs| && Acquiring(s.procs[p].pc)
    ensures |t.procs| == |s.procs|
    ensures Acquiring(t.procs[p].pc) || (t.procs[p].pc.Critical? && t.locked && t.pid == p + 1 && !t.procs[p].chan)
    ensures a == Go(p) && s.procs[p].pc.Test? ==> (t.procs[p].pc.Taken? <==> !s.locked)
    ensures a == Kill(p) ==> !t.procs[p].run.SLEEPING?
  {
    hide Trace, Inv, Init, ProcOk, ProcStep;
    TraceInv(n, acts);
    InvAt(s, a.p);
    InvLock(s);
    if a == Go(p) { OwnStep(s, p, t); } else { PcStays(s, a, t, p); }
  }

  /** A process can go on whenever it waits for nothing: neither for the inner lock
      nor, in wakeup, for another process's lock, nor to be woken and scheduled. */
  lemma StuckIff(n: nat, acts: seq<Action>, s: State, p: nat)
    requires Trace(Init(n), acts) == Live(s) && p < |s.procs|
    ensures var pc := s.procs[p].pc;
            Step(s, Go(p)).Stuck? <==>
              || ((pc.Want? || pc.WantRelease?) && s.inner != -1)
              || pc.Parked?
              || (pc.Wake? && pc.j < |s.procs| && pc.j != p && s.procs[pc.j].lock)
    ensures Step(s, Pick(p)).Live? <==> s.procs[p].run.RUNNABLE?
  {
    hide Trace, Init;
    TraceInv(n, acts);
    InvAt(s, p);
    InvLock(s);
    hide Inv, WakeOk;
  }

  /** Whoever holds the lock keeps it up to releasesleep, which returns, after n + 4
      steps of its own, with the lock free and nobody asleep on it. */
  lemma ReleaseReturns(n: nat, acts: seq<Action>, s: State, a: Action, t: State, p: nat)
    requires Trace(Init(n), acts) == Live(s) && Step(s, a) == Live(t) && p < |s.procs|
    ensures |t.procs| == |s.procs|
    ensures s.procs[p].pc.Critical? ==> t.procs[p].pc.Critical? || t.procs[p].pc.WantRelease?
    ensures a == Go(p) && Releasing(s.procs[p].pc) ==> Left(t.procs[p].pc, |s.procs|) == Left(s.procs[p].pc, |s.procs|) - 1
    ensures Releasing(s.procs[p].pc) && !Releasing(t.procs[p].pc) ==>
              && t.procs[p].pc.Idle? && t.inner == -1 && !t.locked
              && forall q | 0 <= q < |t.procs| :: !t.procs[q].run.SLEEPING?
  {
    hide Trace, Inv, Init, ProcOk, ProcStep;
    TraceInv(n, acts);
    InvAt(s, a.p);
    InvLock(s);
    if a == Go(p) { OwnStep(s, p, t); } else { PcStays(s, a, t, p); }
    StepInv(s, a, t);
    forall q | 0 <= q < |t.procs| && t.inner == -1 && !t.locked ensures !t.procs[q].run.SLEEPING? { InvAt(t, q); }
  }
}
