/** Group commit in kernel/log.c: every interleaving of begin_op, log_write,
    end_op and commit by any number of processes. Each action is one critical
    section under log.lock, or one unlocked stretch of commit(). */
module LogAdmission {
  import opened Params

  /** Where a process stands with respect to the log. */
  datatype Phase =
    | Idle
    | Trying                      // in begin_op's loop, wants log.lock
    | Asleep                      // in begin_op's sleep(&log, ...)
    | InOp(logged: set<nat>)      // between begin_op and end_op
    | Committing                  // last end_op, inside commit()
    | Cleared                     // commit() has reset log.lh.n

  /** A finished commit: its log header and the operations it covers. */
  datatype Commit = Commit(blocks: seq<nat>, ops: seq<set<nat>>)

  datatype State = State(
    outstanding: int,
    committing: bool,
    lh: seq<nat>,                 // log.lh.block[..log.lh.n]
    procs: seq<Phase>,
    finished: seq<set<nat>>,      // operations ended since the last commit
    commits: seq<Commit>)

  datatype Action =
    | Call(p: nat) | TryBegin(p: nat) | Wake(p: nat)
    | LogWrite(p: nat, b: nat) | EndOp(p: nat)
    | WriteOut(p: nat) | FinishCommit(p: nat)

  datatype Outcome = Live(s: State) | Panic | Stuck

  // ----- the critical sections -----

  /** begin_op's test, log.c:131-133. */
  predicate MustWait(outstanding: int, committing: bool, n: nat) {
    committing || n + (outstanding + 1) * MAXOPBLOCKS > LOGSIZE
  }

  /** log_write's panics, log.c:220-223. */
  predicate LogWritePanics(outstanding: int, n: nat, size: nat) {
    n >= LOGSIZE || n >= size - 1 || outstanding < 1
  }

  /** log_write's absorption loop, log.c:225-233. */
  function Absorb(lh: seq<nat>, b: nat): (r: seq<nat>) {
    if b in lh then lh else lh + [b]
  }

  function WakePhase(ph: Phase): (r: Phase) { if ph.Asleep? then Trying else ph }

  /** wakeup(&log). */
  function WakeAll(ps: seq<Phase>): (r: seq<Phase>)
    ensures |r| == |ps| && forall i :: 0 <= i < |ps| ==> r[i] == WakePhase(ps[i])
  {
    seq(|ps|, i requires 0 <= i < |ps| => WakePhase(ps[i]))
  }

  function Step(s: State, size: nat, budget: nat, a: Action): (o: Outcome) {
    if a.p >= |s.procs| then Stuck
    else
      var ph := s.procs[a.p];
      match a
      case Call(p) => if ph.Idle? then Live(s.(procs := s.procs[p := Trying])) else Stuck
      case TryBegin(p) =>
        if !ph.Trying? then Stuck
        else if MustWait(s.outstanding, s.committing, |s.lh|) then Live(s.(procs := s.procs[p := Asleep]))
        else Live(s.(outstanding := s.outstanding + 1, procs := s.procs[p := InOp({})]))
      case Wake(p) => if ph.Asleep? then Live(s.(procs := s.procs[p := Trying])) else Stuck
      case LogWrite(p, b) =>
        if !ph.InOp? || |ph.logged + {b}| > budget then Stuck
        else if LogWritePanics(s.outstanding, |s.lh|, size) then Panic
        else Live(s.(lh := Absorb(s.lh, b), procs := s.procs[p := InOp(ph.logged + {b})]))
      case EndOp(p) =>
        if !ph.InOp? then Stuck
        else if s.committing then Panic
        else
          var t := s.(outstanding := s.outstanding - 1, finished := s.finished + [ph.logged]);
          if t.outstanding == 0 then Live(t.(committing := true, procs := s.procs[p := Committing]))
          else Live(t.(procs := WakeAll(s.procs[p := Idle])))
      case WriteOut(p) =>
        if !ph.Committing? then Stuck
        else Live(s.(lh := [], finished := [], commits := s.commits + [Commit(s.lh, s.finished)],
                     procs := s.procs[p := Cleared]))
      case FinishCommit(p) =>
        if !ph.Cleared? then Stuck
        else Live(s.(committing := false, procs := WakeAll(s.procs[p := Idle])))
  }

  function Boot(nproc: nat): (s: State) {
    State(0, false, [], seq(nproc, _ => Idle), [], [])
  }

  /** Any interleaving: the outcome of a sequence of actions. */
  function Run(s: State, size: nat, budget: nat, acts: seq<Action>): (o: Outcome) {
    if acts == [] then Live(s)
    else
      match Run(s, size, budget, acts[..|acts| - 1])
      case Live(t) => Step(t, size, budget, acts[|acts| - 1])
      case other => other
  }

  // ----- sums over the process table -----

  function Total(w: Phase -> int, ps: seq<Phase>): (n: int) {
    if ps == [] then 0 else Total(w, ps[..|ps| - 1]) + w(ps[|ps| - 1])
  }

  function Runs(ph: Phase): (n: int) { if ph.InOp? then 1 else 0 }
  function Commits(ph: Phase): (n: int) { if ph.Committing? || ph.Cleared? then 1 else 0 }
  /** Log space an operation may still claim. */
  function Reserve(ph: Phase): (n: int) { if ph.InOp? then MAXOPBLOCKS - 1 - |ph.logged| else 0 }

  lemma {:induction false} TotalUpdate(w: Phase -> int, ps: seq<Phase>, p: nat, ph: Phase)
    requires p < |ps|
    ensures Total(w, ps[p := ph]) == Total(w, ps) - w(ps[p]) + w(ph)
  {
    var k := |ps| - 1;
    if p == k {
      assert ps[p := ph][..k] == ps[..k];
    } else {
      TotalUpdate(w, ps[..k], p, ph);
      assert ps[p := ph][..k] == ps[..k][p := ph];
    }
  }

  lemma {:induction false} TotalWake(w: Phase -> int, ps: seq<Phase>)
    requires w(Asleep) == w(Trying)
    ensures Total(w, WakeAll(ps)) == Total(w, ps)
  {
    if ps != [] {
      var k := |ps| - 1;
      TotalWake(w, ps[..k]);
      assert WakeAll(ps)[..k] == WakeAll(ps[..k]);
    }
  }

  lemma {:induction false} TotalPositive(w: Phase -> int, ps: seq<Phase>, p: nat)
    requires p < |ps| && forall ph :: w(ph) >= 0
    ensures Total(w, ps) >= w(ps[p]) && Total(w, ps) >= 0
  {
    var k := |ps| - 1;
    if p < k {
      TotalPositive(w, ps[..k], p);
    } else if k > 0 {
      TotalPositive(w, ps[..k], 0);
    }
  }

  /** Running operations reserve at most MAXOPBLOCKS - 1 blocks each. */
  lemma {:induction false} ReserveBound(ps: seq<Phase>)
    ensures Total(Reserve, ps) <= (MAXOPBLOCKS - 1) * Total(Runs, ps)
  {
    if ps != [] {
      ReserveBound(ps[..|ps| - 1]);
    }
  }

  lemma {:induction false} ReservePositive(ps: seq<Phase>, p: nat)
    requires forall i :: 0 <= i < |ps| && ps[i].InOp? ==> |ps[i].logged| <= MAXOPBLOCKS - 1
    requires p < |ps|
    ensures Total(Reserve, ps) >= Reserve(ps[p])
    ensures Total(Reserve, ps) >= 0
  {
    var k := |ps| - 1;
    if p < k {
      ReservePositive(ps[..k], p);
    } else if k > 0 {
      ReservePositive(ps[..k], 0);
    }
  }

  // ----- the invariant -----

  predicate Distinct(bs: seq<nat>) {
    forall i, j :: 0 <= i < j < |bs| ==> bs[i] != bs[j]
  }

  /** Counters agree with the process table, and a commit excludes running
      operations. */
  ghost predicate Counts(s: State) {
    && s.outstanding == Total(Runs, s.procs)
    && Total(Commits, s.procs) == (if s.committing then 1 else 0)
    && (s.committing ==> s.outstanding == 0)
    && (s.outstanding == 0 && !s.committing ==> s.lh == [] && s.finished == [])
    && (forall i :: 0 <= i < |s.procs| && s.procs[i].Cleared? ==> s.lh == [] && s.finished == [])
  }

  /** The reservation: what is logged plus what running operations may still
      log stays below the last slot. */
  ghost predicate Reserved(s: State) {
    && (forall i :: 0 <= i < |s.procs| && s.procs[i].InOp? ==> |s.procs[i].logged| <= MAXOPBLOCKS - 1)
    && |s.lh| + Total(Reserve, s.procs) <= LOGSIZE - 2
  }

  /** No process sleeps in begin_op while it could be admitted. */
  predicate SleepersWait(s: State) {
    forall i :: 0 <= i < |s.procs| && s.procs[i].Asleep? ==>
      MustWait(s.outstanding, s.committing, |s.lh|)
  }

  /** `b` was logged by a finished or a running operation of this transaction. */
  ghost predicate LoggedBySome(s: State, b: nat) {
    || (exists i :: 0 <= i < |s.finished| && b in s.finished[i])
    || (exists p :: 0 <= p < |s.procs| && s.procs[p].InOp? && b in s.procs[p].logged)
  }

  ghost predicate Covers(c: Commit) {
    && Distinct(c.blocks)
    && forall b :: b in c.blocks <==> exists i :: 0 <= i < |c.ops| && b in c.ops[i]
  }

  /** The header holds exactly the blocks this transaction's operations logged,
      and so did the header of every earlier commit. */
  ghost predicate Grouped(s: State) {
    && Distinct(s.lh)
    && (forall b :: b in s.lh <==> LoggedBySome(s, b))
    && (forall i :: 0 <= i < |s.commits| ==> Covers(s.commits[i]))
  }

  ghost predicate Inv(s: State) {
    Counts(s) && Reserved(s) && SleepersWait(s) && Grouped(s)
  }

  // ----- preservation, one clause at a time -----

  lemma StepCounts(s: State, size: nat, budget: nat, a: Action)
    requires Counts(s) && Step(s, size, budget, a).Live?
    ensures Counts(Step(s, size, budget, a).s)
  {
    hide Total, Absorb;
    var p, t := a.p, Step(s, size, budget, a).s;
    TotalPositive(Runs, s.procs, p);
    TotalPositive(Commits, s.procs, p);
    var ph := if a.EndOp? || a.FinishCommit? then (if a.EndOp? && t.committing then Committing else Idle) else t.procs[p];
    TotalUpdate(Runs, s.procs, p, ph);
    TotalUpdate(Commits, s.procs, p, ph);
    TotalWake(Runs, s.procs[p := ph]);
    TotalWake(Commits, s.procs[p := ph]);
    forall i | 0 <= i < |t.procs| && t.procs[i].Cleared? ensures t.lh == [] && t.finished == [] {
      assert i == p || t.procs[i] == s.procs[i];
      if i != p {
        TotalPositive(Commits, s.procs, i);
      }
    }
  }

  lemma StepReserved(s: State, size: nat, budget: nat, a: Action)
    requires budget <= MAXOPBLOCKS - 1
    requires Counts(s) && Reserved(s) && Grouped(s) && Step(s, size, budget, a).Live?
    ensures Reserved(Step(s, size, budget, a).s)
  {
    var p, t := a.p, Step(s, size, budget, a).s;
    var ph := if a.EndOp? || a.FinishCommit? then (if a.EndOp? && t.committing then Committing else Idle) else t.procs[p];
    TotalUpdate(Reserve, s.procs, p, ph);
    TotalWake(Reserve, s.procs[p := ph]);
    ReservePositive(s.procs, p);
    ReserveBound(s.procs);
    if a.LogWrite? {
      AddBlock(s.procs[p].logged, a.b);
      assert a.b in s.procs[p].logged ==> LoggedBySome(s, a.b);
    }
    forall i | 0 <= i < |t.procs| && t.procs[i].InOp? ensures |t.procs[i].logged| <= MAXOPBLOCKS - 1 {
      assert i == p || t.procs[i] == s.procs[i];
    }
  }

  lemma AddBlock(logged: set<nat>, b: nat)
    ensures |logged + {b}| == if b in logged then |logged| else |logged| + 1
  {
    if b in logged {
      assert logged + {b} == logged;
    }
  }

  lemma StepSleepers(s: State, size: nat, budget: nat, a: Action)
    requires Counts(s) && SleepersWait(s) && Step(s, size, budget, a).Live?
    ensures SleepersWait(Step(s, size, budget, a).s)
  {
    var p, t := a.p, Step(s, size, budget, a).s;
    TotalPositive(Commits, s.procs, p);
    forall i | 0 <= i < |t.procs| && t.procs[i].Asleep?
      ensures MustWait(t.outstanding, t.committing, |t.lh|)
    {
      assert i == p || t.procs[i] == s.procs[i];
    }
  }

  lemma StepGrouped(s: State, size: nat, budget: nat, a: Action)
    requires Counts(s) && Grouped(s) && Step(s, size, budget, a).Live?
    ensures Grouped(Step(s, size, budget, a).s)
  {
    var p, t := a.p, Step(s, size, budget, a).s;
    if a.WriteOut? {
      NoneRunning(s, p);
      assert Covers(Commit(s.lh, s.finished));
      forall i | 0 <= i < |t.procs| ensures !t.procs[i].InOp? {
        assert i == p || t.procs[i] == s.procs[i];
      }
    } else {
      forall b ensures b in t.lh <==> LoggedBySome(t, b) {
        GroupedAt(s, size, budget, a, b);
      }
    }
  }

  /** While a process commits, no operation runs. */
  lemma NoneRunning(s: State, p: nat)
    requires Counts(s) && p < |s.procs| && Commits(s.procs[p]) == 1
    ensures s.committing && forall i :: 0 <= i < |s.procs| ==> !s.procs[i].InOp?
  {
    TotalPositive(Commits, s.procs, p);
    forall i | 0 <= i < |s.procs| ensures !s.procs[i].InOp? {
      TotalPositive(Runs, s.procs, i);
    }
  }

  lemma GroupedAt(s: State, size: nat, budget: nat, a: Action, b: nat)
    requires Counts(s) && Grouped(s) && Step(s, size, budget, a).Live? && !a.WriteOut?
    ensures b in Step(s, size, budget, a).s.lh <==> LoggedBySome(Step(s, size, budget, a).s, b)
  {
    var p, t := a.p, Step(s, size, budget, a).s;
    assert b in s.lh <==> LoggedBySome(s, b);
    if LoggedBySome(s, b) {
      if i :| 0 <= i < |s.finished| && b in s.finished[i] {
        assert t.finished[i] == s.finished[i];
      } else {
        var q :| 0 <= q < |s.procs| && s.procs[q].InOp? && b in s.procs[q].logged;
        if a.EndOp? && q == p {
          assert t.finished[|s.finished|] == s.procs[q].logged;
        } else {
          assert t.procs[q].InOp? && b in t.procs[q].logged;
        }
      }
    }
    if a.LogWrite? && a.b == b {
      assert b in t.procs[p].logged;
    }
    if LoggedBySome(t, b) && !(a.LogWrite? && a.b == b) {
      if i :| 0 <= i < |t.finished| && b in t.finished[i] {
        if i < |s.finished| {
          assert b in s.finished[i];
        } else {
          assert b in s.procs[p].logged;
        }
      } else {
        var q :| 0 <= q < |t.procs| && t.procs[q].InOp? && b in t.procs[q].logged;
        assert q == p || s.procs[q] == t.procs[q];
        assert s.procs[q].InOp? && b in s.procs[q].logged;
      }
    }
  }

  lemma BootInv(nproc: nat)
    ensures Inv(Boot(nproc))
  {
    BootTotals(nproc);
  }

  lemma {:induction false} BootTotals(n: nat)
    ensures var ps := seq(n, _ => Idle);
            Total(Runs, ps) == 0 && Total(Commits, ps) == 0 && Total(Reserve, ps) == 0
  {
    if n > 0 {
      BootTotals(n - 1);
      assert seq(n, _ => Idle)[..n - 1] == seq(n - 1, _ => Idle);
    }
  }

  // ----- main results -----

  /** With at most MAXOPBLOCKS - 1 distinct blocks per operation, and the log
      size mkfs gives, no action of any process can panic. */
  lemma StepSafe(s: State, budget: nat, a: Action)
    requires Inv(s) && budget <= MAXOPBLOCKS - 1
    ensures !Step(s, LOGSIZE, budget, a).Panic?
    ensures Step(s, LOGSIZE, budget, a).Live? ==> Inv(Step(s, LOGSIZE, budget, a).s)
  {
    if a.p < |s.procs| {
      TotalPositive(Runs, s.procs, a.p);
      ReservePositive(s.procs, a.p);
    }
    if Step(s, LOGSIZE, budget, a).Live? {
      StepCounts(s, LOGSIZE, budget, a);
      StepReserved(s, LOGSIZE, budget, a);
      StepSleepers(s, LOGSIZE, budget, a);
      StepGrouped(s, LOGSIZE, budget, a);
    }
  }

  /** Every interleaving keeps the invariant and never panics. */
  lemma {:induction false} RunSafe(nproc: nat, budget: nat, acts: seq<Action>)
    requires budget <= MAXOPBLOCKS - 1
    ensures !Run(Boot(nproc), LOGSIZE, budget, acts).Panic?
    ensures Run(Boot(nproc), LOGSIZE, budget, acts).Live? ==> Inv(Run(Boot(nproc), LOGSIZE, budget, acts).s)
  {
    if acts == [] {
      BootInv(nproc);
    } else {
      RunSafe(nproc, budget, acts[..|acts| - 1]);
      var o := Run(Boot(nproc), LOGSIZE, budget, acts[..|acts| - 1]);
      if o.Live? {
        StepSafe(o.s, budget, acts[|acts| - 1]);
      }
    }
  }

  /** What the invariant says to a caller. */
  lemma InvMeans(s: State, p: nat)
    requires Inv(s) && p < |s.procs|
    ensures |s.lh| <= LOGSIZE - 2
    ensures s.procs[p].InOp? ==> !s.committing
    ensures s.procs[p].Asleep? ==> s.committing || (s.outstanding > 0 && |s.lh| + (s.outstanding + 1) * MAXOPBLOCKS > LOGSIZE)
  {
    ReservePositive(s.procs, p);
    TotalPositive(Runs, s.procs, p);
  }

  /** A pass of begin_op: in, exactly when there is room for this operation beside
      all open ones and nobody commits; asleep otherwise. A process woken tries
      again. */
  lemma BeginsIff(s: State, size: nat, budget: nat, p: nat)
    requires p < |s.procs|
    ensures s.procs[p].Trying? ==>
              Step(s, size, budget, TryBegin(p)) ==
              Live(if !s.committing && |s.lh| + (s.outstanding + 1) * MAXOPBLOCKS <= LOGSIZE
                   then s.(outstanding := s.outstanding + 1, procs := s.procs[p := InOp({})])
                   else s.(procs := s.procs[p := Asleep]))
    ensures s.procs[p].Asleep? ==> Step(s, size, budget, Wake(p)) == Live(s.(procs := s.procs[p := Trying]))
  {
  }

  // ----- the bound is exact -----

  /** `k` log_writes by process `p` of blocks base, base + 1, ... */
  function Burst(p: nat, base: nat, k: nat): (acts: seq<Action>) {
    if k == 0 then [] else Burst(p, base, k - 1) + [LogWrite(p, base + k - 1)]
  }

  function Numbers(lo: nat, k: nat): (r: seq<nat>)
    ensures |r| == k && forall i :: 0 <= i < k ==> r[i] == lo + i
  {
    seq(k, i => lo + i)
  }

  lemma {:induction false} RunConcat(s: State, size: nat, budget: nat, xs: seq<Action>, ys: seq<Action>)
    requires Run(s, size, budget, xs).Live?
    ensures Run(s, size, budget, xs + ys) == Run(Run(s, size, budget, xs).s, size, budget, ys)
  {
    hide Step;
    if ys == [] {
      assert xs + ys == xs;
    } else {
      var k := |ys| - 1;
      RunConcat(s, size, budget, xs, ys[..k]);
      assert (xs + ys)[..|xs| + k] == xs + ys[..k];
    }
  }

  function Span(base: nat, k: nat): (r: set<nat>) {
    if k == 0 then {} else Span(base, k - 1) + {base + k - 1}
  }

  lemma {:induction false} SpanSize(base: nat, k: nat)
    ensures |Span(base, k)| == k
    ensures forall b :: b in Span(base, k) ==> base <= b < base + k
  {
    if k > 0 {
      SpanSize(base, k - 1);
    }
  }

  lemma SpanNext(base: nat, k: nat)
    ensures Span(base, k) + {base + k} == Span(base, k + 1) && |Span(base, k + 1)| == k + 1
  {
    SpanSize(base, k + 1);
  }

  lemma NumbersNext(k: nat)
    ensures Absorb(Numbers(0, k), k) == Numbers(0, k + 1)
  {
  }

  /** An operation that has logged `k` fresh blocks logs one more. */
  lemma BurstStep(s: State, budget: nat, p: nat, base: nat, k: nat)
    requires p < |s.procs| && s.procs[p] == InOp(Span(base, k)) && s.outstanding >= 1
    requires s.lh == Numbers(0, base + k) && k < budget && base + k < LOGSIZE - 1
    ensures Step(s, LOGSIZE, budget, LogWrite(p, base + k)) ==
            Live(s.(lh := Numbers(0, base + k + 1), procs := s.procs[p := InOp(Span(base, k + 1))]))
  {
    hide Numbers, Span, Absorb;
    SpanNext(base, k);
    NumbersNext(base + k);
  }

  lemma NoBurst(s: State, budget: nat, p: nat, base: nat)
    requires p < |s.procs| && s.procs[p] == InOp({}) && s.lh == Numbers(0, base)
    ensures Run(s, LOGSIZE, budget, Burst(p, base, 0)) ==
            Live(s.(lh := Numbers(0, base + 0), procs := s.procs[p := InOp(Span(base, 0))]))
  {
    assert s.procs[p := InOp({})] == s.procs;
  }

  /** A fresh operation can log blocks until the log is full. */
  lemma {:induction false} BurstRuns(s: State, budget: nat, p: nat, base: nat, k: nat)
    requires p < |s.procs| && s.procs[p] == InOp({}) && s.outstanding >= 1
    requires s.lh == Numbers(0, base) && k <= budget && base + k <= LOGSIZE - 1
    ensures Run(s, LOGSIZE, budget, Burst(p, base, k)) ==
            Live(s.(lh := Numbers(0, base + k), procs := s.procs[p := InOp(Span(base, k))]))
  {
    hide Step, Span, Numbers, Run;
    if k == 0 {
      NoBurst(s, budget, p, base);
    } else {
      BurstRuns(s, budget, p, base, k - 1);
      var t := s.(lh := Numbers(0, base + k - 1), procs := s.procs[p := InOp(Span(base, k - 1))]);
      RunAppend(s, budget, Burst(p, base, k - 1), t, LogWrite(p, base + k - 1));
      BurstStep(t, budget, p, base, k - 1);
      assert t.procs[p := InOp(Span(base, k))] == s.procs[p := InOp(Span(base, k))];
    }
  }

  const Admissions := [Call(0), TryBegin(0), Call(1), TryBegin(1), Call(2), TryBegin(2)]

  /** Three operations that log i, j and k distinct blocks. */
  function Fill(i: nat, j: nat, k: nat): (acts: seq<Action>) {
    Admissions + Burst(0, 0, i) + Burst(1, i, j) + Burst(2, i + j, k)
  }

  /** The same with i + j + k + 1 blocks. */
  function Overfill(i: nat, j: nat, k: nat): (acts: seq<Action>) { Fill(i, j, k) + [LogWrite(2, i + j + k)] }

  lemma RunAppend(s: State, budget: nat, xs: seq<Action>, t: State, a: Action)
    requires Run(s, LOGSIZE, budget, xs) == Live(t)
    ensures Run(s, LOGSIZE, budget, xs + [a]) == Step(t, LOGSIZE, budget, a)
  {
    assert (xs + [a])[..|xs|] == xs;
  }

  lemma Admits(s: State, budget: nat, xs: seq<Action>, t: State, p: nat, u: State)
    requires Run(s, LOGSIZE, budget, xs) == Live(t)
    requires p < |t.procs| && t.procs[p].Idle? && !MustWait(t.outstanding, t.committing, |t.lh|)
    requires u == t.(outstanding := t.outstanding + 1, procs := t.procs[p := InOp({})])
    ensures Run(s, LOGSIZE, budget, xs + [Call(p), TryBegin(p)]) == Live(u)
  {
    RunAppend(s, budget, xs, t, Call(p));
    var t' := t.(procs := t.procs[p := Trying]);
    RunAppend(s, budget, xs + [Call(p)], t', TryBegin(p));
    assert xs + [Call(p), TryBegin(p)] == xs + [Call(p)] + [TryBegin(p)];
    assert t'.procs[p := InOp({})] == t.procs[p := InOp({})];
  }

  /** Three processes can all be admitted at once. */
  lemma ThreeAdmitted(budget: nat)
    ensures Run(Boot(3), LOGSIZE, budget, Admissions) ==
            Live(State(3, false, [], [InOp({}), InOp({}), InOp({})], [], []))
  {
    assert Boot(3).procs == [Idle, Idle, Idle];
    var s1 := State(1, false, [], [InOp({}), Idle, Idle], [], []);
    Admits(Boot(3), budget, [], Boot(3), 0, s1);
    var x1 := [] + [Call(0), TryBegin(0)];
    var s2 := State(2, false, [], [InOp({}), InOp({}), Idle], [], []);
    Admits(Boot(3), budget, x1, s1, 1, s2);
    var x2 := x1 + [Call(1), TryBegin(1)];
    Admits(Boot(3), budget, x2, s2, 2, State(3, false, [], [InOp({}), InOp({}), InOp({})], [], []));
    assert Admissions == x2 + [Call(2), TryBegin(2)];
  }

  lemma Bursts(budget: nat, xs: seq<Action>, t: State, p: nat, base: nat, k: nat, u: State)
    requires Run(Boot(3), LOGSIZE, budget, xs) == Live(t)
    requires p < |t.procs| && t.procs[p] == InOp({}) && t.outstanding >= 1
    requires t.lh == Numbers(0, base) && k <= budget && base + k <= LOGSIZE - 1
    requires u == t.(lh := Numbers(0, base + k), procs := t.procs[p := InOp(Span(base, k))])
    ensures Run(Boot(3), LOGSIZE, budget, xs + Burst(p, base, k)) == Live(u)
  {
    BurstRuns(t, budget, p, base, k);
    RunConcat(Boot(3), LOGSIZE, budget, xs, Burst(p, base, k));
  }

  /** Three admitted operations that have logged i, j and k fresh blocks. */
  function Filled(i: nat, j: nat, k: nat): (s: State) {
    State(3, false, Numbers(0, i + j + k), [InOp(Span(0, i)), InOp(Span(i, j)), InOp(Span(i + j, k))], [], [])
  }

  lemma FillNone(budget: nat)
    ensures Run(Boot(3), LOGSIZE, budget, Admissions) ==
            Live(State(3, false, Numbers(0, 0), [InOp({}), InOp({}), InOp({})], [], []))
  {
    ThreeAdmitted(budget);
    assert Numbers(0, 0) == [];
  }

  lemma FillAll(budget: nat, i: nat, j: nat, k: nat)
    requires i <= budget && j <= budget && k <= budget && i + j + k <= LOGSIZE - 1
    ensures Run(Boot(3), LOGSIZE, budget, Fill(i, j, k)) == Live(Filled(i, j, k))
  {
    hide Run, Burst, Numbers, Boot, Span;
    FillNone(budget);
    var s0 := State(3, false, Numbers(0, 0), [InOp({}), InOp({}), InOp({})], [], []);
    var s1 := State(3, false, Numbers(0, i), [InOp(Span(0, i)), InOp({}), InOp({})], [], []);
    var s2 := State(3, false, Numbers(0, i + j), [InOp(Span(0, i)), InOp(Span(i, j)), InOp({})], [], []);
    assert s0.procs[0 := InOp(Span(0, i))] == s1.procs;
    Bursts(budget, Admissions, s0, 0, 0, i, s1);
    assert s1.procs[1 := InOp(Span(i, j))] == s2.procs;
    Bursts(budget, Admissions + Burst(0, 0, i), s1, 1, i, j, s2);
    assert s2.procs[2 := InOp(Span(i + j, k))] == Filled(i, j, k).procs;
    Bursts(budget, Admissions + Burst(0, 0, i) + Burst(1, i, j), s2, 2, i + j, k, Filled(i, j, k));
  }

  /** Three operations that fill all but the last block of the log, each within its
      budget, and then one more block. */
  lemma FullLogPanics(budget: nat, i: nat, j: nat, k: nat)
    requires i <= budget && j <= budget && k < budget && i + j + k == LOGSIZE - 1
    ensures Run(Boot(3), LOGSIZE, budget, Overfill(i, j, k)) == Panic
  {
    hide Run, Boot, Fill, Span, Numbers, Absorb;
    FillAll(budget, i, j, k);
    RunAppend(Boot(3), budget, Fill(i, j, k), Filled(i, j, k), LogWrite(2, i + j + k));
    SpanNext(i + j, k);
  }

  /** A budget of MAXOPBLOCKS distinct blocks per operation, which is what
      begin_op reserves, does not rule out the panic. */
  lemma FullBudgetPanics()
    ensures Run(Boot(3), LOGSIZE, MAXOPBLOCKS, Overfill(MAXOPBLOCKS, MAXOPBLOCKS, MAXOPBLOCKS - 1)) == Panic
  {
    hide Run, Overfill, Boot;
    FullLogPanics(MAXOPBLOCKS, MAXOPBLOCKS, MAXOPBLOCKS, MAXOPBLOCKS - 1);
  }

  /** The exact condition: "too big a transaction" is unreachable in every
      interleaving iff operations log at most MAXOPBLOCKS - 1 distinct blocks. */
  lemma PanicFreeIff(budget: nat)
    ensures (forall nproc, acts :: !Run(Boot(nproc), LOGSIZE, budget, acts).Panic?) <==> budget <= MAXOPBLOCKS - 1
  {
    hide Run, Boot, Overfill;
    if budget <= MAXOPBLOCKS - 1 {
      forall nproc: nat, acts ensures !Run(Boot(nproc), LOGSIZE, budget, acts).Panic? {
        RunSafe(nproc, budget, acts);
      }
    } else {
      var acts := Overfill(MAXOPBLOCKS, MAXOPBLOCKS, MAXOPBLOCKS - 1);
      FullLogPanics(budget, MAXOPBLOCKS, MAXOPBLOCKS, MAXOPBLOCKS - 1);
      assert Run(Boot(3), LOGSIZE, budget, acts).Panic?;
    }
  }
}
