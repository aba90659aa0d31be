/** The process table of kernel/proc.c under every interleaving of CPUs. An
    action runs from one spin-lock operation or swtch to the next point at which
    another CPU could tell the difference. A spin-lock is held by a CPU, so
    p->lock passes between a process and its CPU's scheduler across swtch without
    changing hands. */
module ProcTable {

  datatype PState = UNUSED | USED | SLEEPING | RUNNABLE | RUNNING | ZOMBIE

  /** wait() sleeps on the process itself; `Other` stands for the rest. */
  datatype Chan = NoChan | OnProc(p: nat) | Other(n: nat)

  /** Where a process stands in the kernel. `next` is where a thread goes on that
      was switched out: a timer interrupt may do that wherever no spin-lock is
      held, also in the middle of fork() and on the way back into wait(). */
  datatype Pc =
    | Run                               // holds none of the modelled locks
    | Parked(next: Pc)                  // switched out
    | ResumeHold(next: Pc)              // just switched in, own lock held
    | LeaveHold(next: Pc)               // own lock held, about to swtch out
    | WantWait                          // woken inside wait(), wants wait_lock
    | ForkHeld(child: nat)              // allocproc returned, child's lock held
    | ForkLink(child: nat)              // about to set child->parent
    | ForkMark(child: nat)              // about to make the child runnable
    | ExitReparent(k: nat)              // wait_lock held, scanning the table
    | ExitWakeInit(k: nat, j: nat)      // in wakeup(initproc), for child k
    | ExitWake(j: nat)                  // in wakeup(p->parent)
    | ExitLock                          // about to take the own lock
    | WaitScan(k: nat, kids: bool)      // wait_lock held, looking for children
    | WaitChild(k: nat, kids: bool)     // wait_lock and child k's lock held

  /** `lock` is the CPU holding p->lock, or -1; `cpu` the CPU whose c->proc is
      this process, or -1. */
  datatype Proc = Proc(state: PState, parent: int, chan: Chan, pc: Pc, lock: int, cpu: int)

  /** What a CPU runs: its scheduler loop, or a process. */
  datatype Ctl = Scan | Hold(j: nat) | Back(j: nat) | InProc(p: nat)

  datatype Cpu = Cpu(proc: int, ctl: Ctl)

  datatype State = State(procs: seq<Proc>, cpus: seq<Cpu>, waitLock: int, init: nat)

  /** What a process does next: `Yield` is a timer interrupt, `Next` steps any
      other point than `Run`, and its flag decides what the model leaves open (a
      failed copy, a kill seen). */
  datatype Op = Yield | Sleep(ch: nat) | Wakeup(j: nat, ch: nat) | Kill(j: nat)
              | Fork(j: nat) | Exit | Wait | Next(flag: bool)

  /** `Intr` is a wakeup from an interrupt handler reaching table entry j. */
  datatype Action = Sched(c: nat, j: nat) | Go(c: nat, op: Op) | Intr(c: nat, j: nat, ch: nat)

  datatype Outcome = Live(s: State) | Stuck

  function SetProc(s: State, p: nat, x: Proc): (t: State)
    requires p < |s.procs|
  {
    s.(procs := s.procs[p := x])
  }

  function SetPc(s: State, p: nat, pc: Pc): (t: State)
    requires p < |s.procs|
  {
    SetProc(s, p, s.procs[p].(pc := pc))
  }

  function SetCtl(s: State, c: nat, x: Cpu): (t: State)
    requires c < |s.cpus|
  {
    s.(cpus := s.cpus[c := x])
  }

  /** The channel of a struct proc pointer; null is no channel. */
  function ProcChan(q: int): (ch: Chan) { if q < 0 then NoChan else OnProc(q) }

  predicate Asleep(x: Proc, ch: Chan) { x.state.SLEEPING? && x.chan == ch }

  /** wakeup's critical section for one table entry. */
  function Woken(x: Proc, ch: Chan): (y: Proc) {
    if Asleep(x, ch) then x.(state := RUNNABLE) else x
  }

  /** freeproc */
  function Freed(x: Proc): (y: Proc) {
    x.(state := UNUSED, parent := -1, chan := NoChan)
  }

  function Step(s: State, a: Action): (o: Outcome) {
    if a.c >= |s.cpus| then Stuck
    else if a.Sched? then SchedStep(s, a.c, a.j)
    else if a.Intr? then
      if a.j < |s.procs| && s.procs[a.j].lock < 0 then Live(SetProc(s, a.j, Woken(s.procs[a.j], Other(a.ch)))) else Stuck
    else
      match s.cpus[a.c].ctl
      case InProc(p) => if p < |s.procs| then ProcStep(s, a.c, p, a.op) else Stuck
      case _ => Stuck
  }

  /** scheduler() */
  function SchedStep(s: State, c: nat, j: nat): (o: Outcome)
    requires c < |s.cpus|
  {
    match s.cpus[c].ctl
    case Scan =>
      if j < |s.procs| && s.procs[j].lock < 0
      then Live(SetCtl(SetProc(s, j, s.procs[j].(lock := c)), c, s.cpus[c].(ctl := Hold(j)))) else Stuck
    case Hold(k) =>
      if k >= |s.procs| then Stuck
      else if s.procs[k].state.RUNNABLE? then
        var pc := if s.procs[k].pc.Parked? then ResumeHold(s.procs[k].pc.next) else s.procs[k].pc;
        Live(SetCtl(SetProc(s, k, s.procs[k].(state := RUNNING, cpu := c, pc := pc)), c, Cpu(k, InProc(k))))
      else Live(SetCtl(SetProc(s, k, s.procs[k].(lock := -1)), c, s.cpus[c].(ctl := Scan)))
    case Back(k) =>
      if k >= |s.procs| then Stuck
      else Live(SetCtl(SetProc(s, k, s.procs[k].(lock := -1, cpu := -1)), c, Cpu(-1, Scan)))
    case InProc(_) => Stuck
  }

  /** No spin-lock is held here, so interrupts are on. */
  predicate MayYield(pc: Pc) { pc.Run? || pc.WantWait? || pc.ForkLink? || pc.ForkMark? }

  /** kerneltrap's or usertrap's yield() */
  function YieldStep(s: State, c: nat, p: nat): (o: Outcome)
    requires p < |s.procs|
  {
    var x := s.procs[p];
    if x.lock < 0 then Live(SetProc(s, p, x.(lock := c, state := RUNNABLE, pc := LeaveHold(x.pc)))) else Stuck
  }

  function ProcStep(s: State, c: nat, p: nat, op: Op): (o: Outcome)
    requires c < |s.cpus| && p < |s.procs|
  {
    var x, n := s.procs[p], |s.procs|;
    if op.Yield? then if MayYield(x.pc) then YieldStep(s, c, p) else Stuck
    else if !x.pc.Run? && !op.Next? then Stuck
    else
      match x.pc
      case Run => RunStep(s, c, p, op)
      case WantWait => if s.waitLock < 0 then Live(SetPc(s, p, WaitScan(0, false)).(waitLock := p)) else Stuck
      case ResumeHold(next) =>
        Live(SetProc(s, p, x.(lock := -1, chan := NoChan, pc := next)))
      case LeaveHold(next) =>
        Live(SetCtl(SetPc(s, p, Parked(next)), c, s.cpus[c].(ctl := Back(p))))
      case Parked(_) => Stuck
      case ForkHeld(j) =>
        if j >= n then Stuck
        else if op.Next? && op.flag then
          Live(SetPc(SetProc(s, j, Freed(s.procs[j]).(lock := -1)), p, Run))
        else Live(SetPc(SetProc(s, j, s.procs[j].(lock := -1)), p, ForkLink(j)))
      case ForkLink(j) =>
        if j < n && s.waitLock < 0 then Live(SetPc(SetProc(s, j, s.procs[j].(parent := p)), p, ForkMark(j))) else Stuck
      case ForkMark(j) =>
        if j < n && s.procs[j].lock < 0
        then Live(SetPc(SetProc(s, j, s.procs[j].(state := RUNNABLE)), p, Run)) else Stuck
      case _ => if x.pc.WaitScan? || x.pc.WaitChild? then WaitStep(s, c, p, op) else ExitStep(s, c, p)
  }

  function RunStep(s: State, c: nat, p: nat, op: Op): (o: Outcome)
    requires c < |s.cpus| && p < |s.procs|
  {
    var x, n := s.procs[p], |s.procs|;
    match op
    case Sleep(ch) =>
      if x.lock < 0
      then Live(SetProc(s, p, x.(lock := c, state := SLEEPING, chan := Other(ch), pc := LeaveHold(Run)))) else Stuck
    case Wakeup(j, ch) =>
      if j < n && j != p && s.procs[j].lock < 0 then Live(SetProc(s, j, Woken(s.procs[j], Other(ch)))) else Stuck
    case Kill(j) =>
      if j < n && s.procs[j].lock < 0 then Live(SetProc(s, j, Woken(s.procs[j], s.procs[j].chan))) else Stuck
    case Fork(j) =>
      if j < n && s.procs[j].lock < 0 && s.procs[j].state.UNUSED?
      then Live(SetPc(SetProc(s, j, s.procs[j].(lock := c, state := USED)), p, ForkHeld(j))) else Stuck
    case Exit =>
      if p != s.init && s.waitLock < 0 then Live(SetPc(s, p, ExitReparent(0)).(waitLock := p)) else Stuck
    case Wait =>
      if s.waitLock < 0 then Live(SetPc(s, p, WaitScan(0, false)).(waitLock := p)) else Stuck
    case _ => Stuck
  }

  /** exit() from reparent on; wakeup skips the caller. */
  function ExitStep(s: State, c: nat, p: nat): (o: Outcome)
    requires c < |s.cpus| && p < |s.procs|
  {
    var x, n := s.procs[p], |s.procs|;
    match x.pc
    case ExitReparent(k) =>
      if k >= n then Live(SetPc(s, p, ExitWake(0)))
      else if s.procs[k].parent == p then
        Live(SetPc(SetProc(s, k, s.procs[k].(parent := s.init)), p, ExitWakeInit(k, 0)))
      else Live(SetPc(s, p, ExitReparent(k + 1)))
    case ExitWakeInit(k, j) =>
      if j >= n then Live(SetPc(s, p, ExitReparent(k + 1)))
      else if j == p then Live(SetPc(s, p, ExitWakeInit(k, j + 1)))
      else if s.procs[j].lock < 0 then
        Live(SetPc(SetProc(s, j, Woken(s.procs[j], OnProc(s.init))), p, ExitWakeInit(k, j + 1)))
      else Stuck
    case ExitWake(j) =>
      if j >= n then Live(SetPc(s, p, ExitLock))
      else if j == p then Live(SetPc(s, p, ExitWake(j + 1)))
      else if s.procs[j].lock < 0 then
        Live(SetPc(SetProc(s, j, Woken(s.procs[j], ProcChan(x.parent))), p, ExitWake(j + 1)))
      else Stuck
    case ExitLock =>
      if x.lock < 0
      then Live(SetProc(s, p, x.(lock := c, state := ZOMBIE, pc := LeaveHold(Run))).(waitLock := -1)) else Stuck
    case _ => Stuck
  }

  /** wait(); the flag is a failed copyout, or p->killed seen. */
  function WaitStep(s: State, c: nat, p: nat, op: Op): (o: Outcome)
    requires c < |s.cpus| && p < |s.procs|
  {
    var x, n, flag := s.procs[p], |s.procs|, op.Next? && op.flag;
    match x.pc
    case WaitScan(k, kids) =>
      if k >= n then
        if !kids || flag then Live(SetPc(s, p, Run).(waitLock := -1))
        else if x.lock < 0 then
          Live(SetProc(s, p, x.(lock := c, state := SLEEPING, chan := OnProc(p), pc := LeaveHold(WantWait))).(waitLock := -1))
        else Stuck
      else if s.procs[k].parent == p then
        if s.procs[k].lock < 0
        then Live(SetPc(SetProc(s, k, s.procs[k].(lock := c)), p, WaitChild(k, kids))) else Stuck
      else Live(SetPc(s, p, WaitScan(k + 1, kids)))
    case WaitChild(k, kids) =>
      if k >= n then Stuck
      else if s.procs[k].state.ZOMBIE? then
        if flag then Live(SetPc(SetProc(s, k, s.procs[k].(lock := -1)), p, Run).(waitLock := -1))
        else Live(SetPc(SetProc(s, k, Freed(s.procs[k]).(lock := -1)), p, Run).(waitLock := -1))
      else Live(SetPc(SetProc(s, k, s.procs[k].(lock := -1)), p, WaitScan(k + 1, true)))
    case _ => Stuck
  }

  function Trace(s: State, acts: seq<Action>): (o: Outcome) {
    if acts == [] then Live(s)
    else
      match Trace(s, acts[..|acts| - 1])
      case Live(t) => Step(t, acts[|acts| - 1])
      case Stuck => Stuck
  }

  /** After userinit: init is runnable, everything else unused. */
  function Boot(nproc: nat, ncpu: nat, init: nat): (s: State)
    requires init < nproc
  {
    State(seq(nproc, i => Proc(if i == init then RUNNABLE else UNUSED, -1, NoChan, Parked(Run), -1, -1)),
          seq(ncpu, _ => Cpu(-1, Scan)), -1, init)
  }
}
