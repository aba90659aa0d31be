/** How many pages walk() has to find for page-table pages (kernel/vm.c). */
module TableCosts {
  import opened PageTable
  import opened PageMemory
  import opened AddressSpaces

  /** Which level-1 and level-0 tables an address space has. */
  datatype Tables = Tables(mids: set<nat>, lows: set<nat>)

  function TablesOf(sp: Space): (ts: Tables) { Tables(sp.mids.Keys, sp.lows.Keys) }

  /** With those on the path to page v. */
  function Plus(ts: Tables, v: nat): (r: Tables) { Tables(ts.mids + {Up(Up(v))}, ts.lows + {Up(v)}) }

  /** How many of them are missing. */
  function Lack(ts: Tables, v: nat): (n: nat) {
    (if Up(Up(v)) in ts.mids then 0 else 1) + (if Up(v) in ts.lows then 0 else 1)
  }

  /** The same for n pages from v on. */
  function PlusAll(ts: Tables, v: nat, n: nat): (r: Tables) {
    if n == 0 then ts else Plus(PlusAll(ts, v, n - 1), v + n - 1)
  }

  function Lacks(ts: Tables, v: nat, n: nat): (k: nat) {
    if n == 0 then 0 else Lacks(ts, v, n - 1) + Lack(PlusAll(ts, v, n - 1), v + n - 1)
  }

  lemma LacksNext(ts: Tables, v: nat, n: nat)
    ensures PlusAll(ts, v, 0) == ts && Lacks(ts, v, 0) == 0
    ensures PlusAll(ts, v, n + 1) == Plus(PlusAll(ts, v, n), v + n)
    ensures Lacks(ts, v, n + 1) == Lacks(ts, v, n) + Lack(PlusAll(ts, v, n), v + n)
  {
    hide Plus, Lack;
  }

  lemma {:induction false} LacksMore(ts: Tables, v: nat, k: nat, n: nat)
    requires k <= n
    ensures Lacks(ts, v, k) <= Lacks(ts, v, n)
  {
    if k < n { LacksMore(ts, v, k, n - 1); }
  }

  /** Pages that growing from n0 to n user pages takes. */
  function PagesToGrow(ts: Tables, n0: nat, n: nat): (k: nat) {
    if n0 <= n then (n - n0) + Lacks(ts, n0, n - n0) else 0
  }

  lemma SameTables(sp: Space, sp': Space)
    requires sp'.mids == sp.mids && sp'.lows == sp.lows
    ensures TablesOf(sp') == TablesOf(sp)
  {}

  lemma NoTables(root: nat, sp: Space)
    requires sp == Space(root, map[], map[], map[])
    ensures TablesOf(sp) == Tables({}, {})
  {}

  // ----- inside walk() -----

  /** The tables once walk() has reached a level, and what it took so far. */
  function Reached(ts: Tables, v: nat, level: nat): (r: Tables) {
    if level >= 2 then ts else if level == 1 then ts.(mids := ts.mids + {Up(Up(v))}) else Plus(ts, v)
  }

  function Spent(ts: Tables, v: nat, level: nat): (n: nat) {
    if level >= 2 then 0 else if level == 1 then (if Up(Up(v)) in ts.mids then 0 else 1) else Lack(ts, v)
  }

  lemma WalkStart(ts: Tables, v: nat)
    ensures Reached(ts, v, 2) == ts && Spent(ts, v, 2) == 0 && Reached(ts, v, 0) == Plus(ts, v) && Spent(ts, v, 0) == Lack(ts, v)
  {}

  /** The table was there. */
  lemma WalkDown(ts: Tables, sp: Space, v: nat, level: nat)
    requires 1 <= level <= 2 && TablesOf(sp) == Reached(ts, v, level) && Key(level, v) in Kids(sp, level)
    ensures TablesOf(sp) == Reached(ts, v, level - 1) && Spent(ts, v, level - 1) == Spent(ts, v, level)
  {
    hide Up;
  }

  /** The table was not there. */
  lemma WalkNew(ts: Tables, sp: Space, v: nat, level: nat, p: nat)
    requires 1 <= level <= 2 && TablesOf(sp) == Reached(ts, v, level) && Key(level, v) !in Kids(sp, level)
    ensures TablesOf(WithKid(sp, level, Key(level, v), p)) == Reached(ts, v, level - 1)
    ensures Spent(ts, v, level - 1) == Spent(ts, v, level) + 1 <= Lack(ts, v)
  {
    hide Up;
  }

  // ----- a process -----

  /** What proc_pagetable makes for the trampoline, and shares with the trapframe. */
  function TopTables(): (ts: Tables) { Plus(Tables({}, {}), UMAX + 1) }

  lemma TrampolineCosts()
    ensures Lack(Tables({}, {}), UMAX + 1) == 2 && TopTables() == Plus(Tables({}, {}), UMAX + 1)
  {}

  /** The trapframe is next to the trampoline and needs no table of its own. */
  lemma TrapframeCosts()
    ensures Lack(TopTables(), UMAX) == 0 && Plus(TopTables(), UMAX) == TopTables()
  {
    assert Up(UMAX + 1) == Up(UMAX);
    hide Up;
  }

  /** Rounded up to whole tables of 512 entries. */
  function Ceil(n: nat): (k: nat) { (n + 511) / 512 }

  /** Page n - 1 opens a new table iff it is the first of its 512. */
  lemma CeilStep(n: nat)
    requires 0 < n <= 0x10_0000
    ensures Ceil(n) == Up(n - 1) + 1 == if Up(n - 1) < Ceil(n - 1) then Ceil(n - 1) else Ceil(n - 1) + 1
    ensures Up(n - 1) < Up(UMAX)
  {}

  lemma CeilStepUp(n: nat)
    requires 0 < n <= 0x10_0000
    ensures Ceil(Ceil(n)) == Up(Up(n - 1)) + 1
    ensures Up(Up(n - 1)) + 1 == if Up(Up(n - 1)) < Ceil(Ceil(n - 1)) then Ceil(Ceil(n - 1)) else Ceil(Ceil(n - 1)) + 1
    ensures Up(Up(n - 1)) < Up(Up(UMAX))
  {}

  lemma {:induction false} UserTables(n: nat, k: nat)
    requires n <= 0x10_0000
    ensures k in PlusAll(TopTables(), 0, n).lows <==> k < Ceil(n) || k == Up(UMAX)
    ensures k in PlusAll(TopTables(), 0, n).mids <==> k < Ceil(Ceil(n)) || k == Up(Up(UMAX))
  {
    if n == 0 {
      assert Up(UMAX + 1) == Up(UMAX);
    } else {
      hide Up, Ceil, TopTables;
      UserTables(n - 1, k);
      CeilStep(n);
      CeilStepUp(n);
    }
  }

  /** One table for every 512 user pages, and one for every 512 of those. */
  lemma {:induction false} UserCosts(n: nat)
    requires n <= 0x10_0000
    ensures Lacks(TopTables(), 0, n) == Ceil(n) + Ceil(Ceil(n))
  {
    hide PlusAll, TopTables, Plus;
    if n > 0 {
      hide Up, Ceil;
      UserCosts(n - 1);
      UserTables(n - 1, Up(n - 1));
      UserTables(n - 1, Up(Up(n - 1)));
      CeilStep(n);
      CeilStepUp(n);
    }
  }

  /** Pages a fork of a process of n user pages takes: trapframe, root, the two
      tables on top, the pages, and their tables. */
  function ForkCost(n: nat): (k: nat) { 4 + n + Ceil(n) + Ceil(Ceil(n)) }

  lemma ForkCosts(n: nat)
    requires n <= 0x10_0000
    ensures ForkCost(n) == 4 + PagesToGrow(TopTables(), 0, n) >= 4
  {
    hide Lacks, TopTables;
    UserCosts(n);
  }
}
