/** The pages of all processes together (kernel/proc.c): free list, page tables,
    user memory and trapframes share physical memory without overlap or loss. */
module ProcessMemory {
  import opened Params
  import opened PageTable
  import opened PageMemory
  import opened AddressSpaces
  import opened TableCosts
  import opened VirtualMemory

  /** What struct proc says about memory. */
  datatype Proc = Proc(pagetable: nat, trapframe: nat, sz: nat)

  /** The pages of one process. */
  function Holdings(pr: Proc, sp: Space): (s: set<nat>) { Owned(sp, Npages(pr.sz)) + {pr.trapframe} }

  /** One process's memory is in order; sizes are 32-bit, as growproc keeps them. */
  predicate ProcOk(m: Mem, pr: Proc, sp: Space, lo: nat, hi: nat) {
    && UserOk(m, sp, Npages(pr.sz), lo, hi) && pr.pagetable == sp.root && TopMapped(sp.leaf, Npages(pr.sz))
    && pr.sz < 0x1_0000_0000 && lo <= pr.trapframe < hi && Ppn(sp.leaf[UMAX]) == pr.trapframe
    && pr.trapframe !in Owned(sp, Npages(pr.sz)) && pr.trapframe !in Free(m)
  }

  /** Everything held by the processes in the table. */
  function Held(procs: map<nat, Proc>, spaces: map<nat, Space>): (s: set<nat>)
    requires procs.Keys == spaces.Keys
  {
    set i, q | i in procs && q in Holdings(procs[i], spaces[i]) :: q
  }

  /** Every page of `all` is free or held by exactly one process. */
  predicate Sys(m: Mem, procs: map<nat, Proc>, spaces: map<nat, Space>, all: set<nat>, lo: nat, hi: nat) {
    && FreeOk(m, lo, hi) && procs.Keys == spaces.Keys
    && (forall i :: i in procs ==> ProcOk(m, procs[i], spaces[i], lo, hi))
    && (forall i, j :: i in procs && j in procs && i != j ==> Holdings(procs[i], spaces[i]) !! Holdings(procs[j], spaces[j]))
    && Free(m) + Held(procs, spaces) == all && Free(m) !! Held(procs, spaces)
  }

  /** What slot i holds, if it is in use. */
  function SlotPages(procs: map<nat, Proc>, spaces: map<nat, Space>, i: nat): (s: set<nat>)
    requires procs.Keys == spaces.Keys
  {
    if i in procs then Holdings(procs[i], spaces[i]) else {}
  }

  /** The tables agree except at slot i. */
  ghost predicate OnlySlot(procs: map<nat, Proc>, spaces: map<nat, Space>, procs': map<nat, Proc>, spaces': map<nat, Space>, i: nat) {
    && procs'.Keys == spaces'.Keys && procs.Keys == spaces.Keys
    && forall j :: j != i ==> (j in procs <==> j in procs') && (j in procs ==> procs'[j] == procs[j] && spaces'[j] == spaces[j])
  }

  lemma ProcStays(m: Mem, pr: Proc, sp: Space, a: set<nat>, m': Mem, a': set<nat>, lo: nat, hi: nat)
    requires ProcOk(m, pr, sp, lo, hi) && Moves(m, a, m', a') && Holdings(pr, sp) !! a && FreeOk(m', lo, hi)
    ensures ProcOk(m', pr, sp, lo, hi) && Holdings(pr, sp) !! a'
  {
    hide UserOk, Owned, FreeOk, TopMapped, Ppn, Frame;
    Bystander(m, sp, Npages(pr.sz), a, m', a', lo, hi);
  }

  /** A change that moves pages only between slot i and the free list keeps the
      whole system in order. */
  lemma SlotStep(m: Mem, procs: map<nat, Proc>, spaces: map<nat, Space>, m': Mem, procs': map<nat, Proc>, spaces': map<nat, Space>,
                 i: nat, all: set<nat>, lo: nat, hi: nat)
    requires Sys(m, procs, spaces, all, lo, hi) && OnlySlot(procs, spaces, procs', spaces', i) && FreeOk(m', lo, hi)
    requires Moves(m, SlotPages(procs, spaces, i), m', SlotPages(procs', spaces', i))
    requires i in procs' ==> ProcOk(m', procs'[i], spaces'[i], lo, hi)
    ensures Sys(m', procs', spaces', all, lo, hi)
  {
    hide ProcOk, Holdings, FreeOk, Free, Moves, Held;
    var a, a' := SlotPages(procs, spaces, i), SlotPages(procs', spaces', i);
    forall j | j in procs' && j != i
      ensures ProcOk(m', procs'[j], spaces'[j], lo, hi) && Holdings(procs'[j], spaces'[j]) !! a'
    {
      ProcStays(m, procs[j], spaces[j], a, m', a', lo, hi);
    }
    HeldSplit(procs, spaces, i);
    HeldSplit(procs', spaces', i);
    assert procs' - {i} == procs - {i} && spaces' - {i} == spaces - {i};
    RestApart(procs, spaces, i);
    SameTotal(m, a, m', a', Held(procs - {i}, spaces - {i}), all);
  }

  lemma HeldSplit(procs: map<nat, Proc>, spaces: map<nat, Space>, i: nat)
    requires procs.Keys == spaces.Keys
    ensures (procs - {i}).Keys == (spaces - {i}).Keys
    ensures Held(procs, spaces) == Held(procs - {i}, spaces - {i}) + SlotPages(procs, spaces, i)
  {
    hide Holdings;
    var rest, srest := procs - {i}, spaces - {i};
    forall q ensures q in Held(procs, spaces) <==> q in Held(rest, srest) || q in SlotPages(procs, spaces, i) {
      if q in Held(procs, spaces) {
        var j :| j in procs && q in Holdings(procs[j], spaces[j]);
        assert j != i ==> j in rest;
      }
      if q in Held(rest, srest) { var j :| j in rest && q in Holdings(rest[j], srest[j]); assert j in procs; }
    }
  }

  lemma RestApart(procs: map<nat, Proc>, spaces: map<nat, Space>, i: nat)
    requires procs.Keys == spaces.Keys && (procs - {i}).Keys == (spaces - {i}).Keys
    requires forall j, k :: j in procs && k in procs && j != k ==> Holdings(procs[j], spaces[j]) !! Holdings(procs[k], spaces[k])
    ensures Held(procs - {i}, spaces - {i}) !! SlotPages(procs, spaces, i)
  {
    hide Holdings;
  }

  lemma SameTotal(m: Mem, a: set<nat>, m': Mem, a': set<nat>, rest: set<nat>, all: set<nat>)
    requires Moves(m, a, m', a') && rest !! a && Free(m) + (rest + a) == all && Free(m) !! rest + a
    ensures Free(m') + (rest + a') == all && Free(m') !! rest + a'
  {
    hide Free, Frame;
  }

  /** What is free is what nobody holds. */
  lemma FreeIsRest(m: Mem, m': Mem, procs: map<nat, Proc>, spaces: map<nat, Space>, all: set<nat>, lo: nat, hi: nat)
    requires Sys(m, procs, spaces, all, lo, hi) && Sys(m', procs, spaces, all, lo, hi)
    ensures Free(m') == Free(m)
  {
    hide Free, Held, ProcOk, Holdings, FreeOk;
    assert Free(m) == all - Held(procs, spaces);
    assert Free(m') == all - Held(procs, spaces);
  }

  // ----- steps of allocproc and freeproc -----

  lemma TookOne(m: Mem, p: nat, m': Mem, lo: nat, hi: nat)
    requires FreeOk(m, lo, hi) && FreeOk(m', lo, hi) && p in Free(m) && Free(m') == Free(m) - {p}
    requires m'.ram == m.ram[p := m'.ram[p]] && p in m.ram
    ensures Moves(m, {}, m', {} + {p}) && Apart({p}, {}, m')
  {
    hide FreeOk, Free;
  }

  lemma GaveOne(m: Mem, a: set<nat>, p: nat, m': Mem)
    requires Free(m') == Free(m) + {p} && Frame(m.ram, m'.ram, {p}) && a !! Free(m) + {p}
    ensures Moves(m, a + {p}, m', a)
  {
    hide Free;
  }

  lemma NewProc(m: Mem, tf: nat, sp: Space, pr: Proc, tramp: nat, lo: nat, hi: nat)
    requires UserOk(m, sp, 0, lo, hi) && pr == Proc(sp.root, tf, 0) && lo <= tf < hi && Apart({tf}, Nodes(sp), m)
    requires sp.leaf == map[UMAX + 1 := Pte(tramp, 10), UMAX := Pte(tf, 6)]
    ensures ProcOk(m, pr, sp, lo, hi) && Holdings(pr, sp) == Nodes(sp) + {tf}
  {
    hide UserOk, Nodes, Ppn, Pte, Owned;
    PteFields(tf, 6);
    NoUser(sp);
  }

  /** struct trapframe has 36 words, the 15th of them a0. */
  function CopiedFrame(from: Page, to: Page): (p: Page) {
    (from[..36] + to[36..])[14 := 0]
  }

  predicate FrameCopied(from: Page, to: Page) {
    to[14] == 0 && forall k :: 0 <= k < 36 && k != 14 ==> to[k] == from[k]
  }

  /** Some slot of the table is UNUSED. */
  predicate HasSlot(procs: map<nat, Proc>) { exists k :: 0 <= k < NPROC && k !in procs }

  class Kernel {
    const vm: Vm
    const trampoline: nat
    var procs: map<nat, Proc>
    ghost var spaces: map<nat, Space>
    ghost const all: set<nat>

    ghost predicate Valid()
      reads this, vm
    {
      Sys(vm.M(), procs, spaces, all, vm.lo, vm.hi)
    }

    /** After kinit and procinit: every page is free and no slot is in use. */
    constructor (first: nat, last: nat, contents: Ram, tramp: nat)
      requires 0 < first <= last && forall p :: first <= p < last ==> p in contents
      ensures Valid() && fresh(vm) && vm.lo == first && vm.hi == last && procs == map[] && all == Span(first, last)
    {
      vm := new Vm(first, last, contents);
      trampoline, procs, spaces, all := tramp, map[], map[], Span(first, last);
      new;
      SysEmpty(vm.M(), all, first, last);
    }

    /** allocproc's search. */
    method FindSlot() returns (i: nat)
      ensures i <= NPROC && (i < NPROC ==> i !in procs) && forall k :: 0 <= k < i ==> k in procs
    {
      i := 0;
      while i < NPROC && i in procs
        invariant i <= NPROC && forall k :: 0 <= k < i ==> k in procs
      {
        i := i + 1;
      }
    }

    /** The lowest UNUSED slot gets a trapframe page and an empty address space; that
        fails exactly when there is no such slot, or fewer than four free pages. */
    method Allocproc() returns (ok: bool, i: nat)
      requires Valid()
      modifies this, vm
      ensures Valid() && (ok <==> HasSlot(old(procs)) && |old(vm.free)| >= 4)
      ensures ok ==> i < NPROC && i !in old(procs) && forall k :: 0 <= k < i ==> k in old(procs)
      ensures ok ==> i in procs && procs == old(procs)[i := procs[i]] && procs[i].sz == 0
      ensures ok ==> i in spaces && spaces == old(spaces)[i := spaces[i]] && TablesOf(spaces[i]) == TopTables()
      ensures ok ==> |vm.free| + 4 == |old(vm.free)|
      ensures !ok ==> procs == old(procs) && spaces == old(spaces)
      ensures Frame(old(vm.ram), vm.ram, Free(old(vm.M())))
    {
      hide Sys, Frame, Free, TablesOf, TopTables;
      FrameSame(vm.ram, Free(vm.M()));
      i := FindSlot();
      if i == NPROC { return false, i; }
      ok := FillSlot(i);
    }

    /** The rest of allocproc, for a slot found UNUSED. */
    method FillSlot(i: nat) returns (ok: bool)
      requires Valid() && i !in procs
      modifies this, vm
      ensures Valid() && procs.Keys == if ok then old(procs).Keys + {i} else old(procs).Keys
      ensures procs == if ok then old(procs)[i := procs[i]] else old(procs)
      ensures spaces == if ok then old(spaces)[i := spaces[i]] else old(spaces)
      ensures ok ==> procs[i].sz == 0
      ensures ok <==> |old(vm.free)| >= 4
      ensures ok ==> |vm.free| + 4 == |old(vm.free)| && i in spaces && TablesOf(spaces[i]) == TopTables()
      ensures Frame(old(vm.ram), vm.ram, Free(old(vm.M())))
    {
      hide Sys, ProcOk, UserOk, Holdings, Held, FreeOk, Free, Moves, Frame, Nodes, Pte, Apart, Owned, TablesOf, TopTables;
      ghost var m0 := vm.M();
      SysFree(m0, procs, spaces, all, vm.lo, vm.hi);
      var tf := vm.Kalloc();
      FrameSame(m0.ram, Free(m0));
      if tf == 0 { return false; }
      ghost var m1 := vm.M();
      ghost var sp;
      TookOne(m0, tf, m1, vm.lo, vm.hi);
      var root;
      root, sp := vm.ProcPagetable(tf, trampoline);
      ghost var m2 := vm.M();
      MovesMore(m1, {}, m2, if root == 0 then {} else Nodes(sp), {tf});
      if root == 0 {
        FreeOne(m2, tf, vm.lo, vm.hi);
        vm.Kfree(tf);
        GaveOne(m2, {}, tf, vm.M());
        MovesTrans(m0, {}, m1, {} + {tf}, m2, {} + {tf});
        MovesTrans(m0, {}, m2, {} + {tf}, vm.M(), {});
        MovesFrame(m0, {}, vm.M(), {});
        SlotStep(m0, procs, spaces, vm.M(), procs, spaces, i, all, vm.lo, vm.hi);
        return false;
      }
      var pr := Proc(root, tf, 0);
      NewProc(m2, tf, sp, pr, trampoline, vm.lo, vm.hi);
      MovesTrans(m0, {}, m1, {} + {tf}, m2, Nodes(sp) + {tf});
      MovesFrame(m0, {}, m2, Nodes(sp) + {tf});
      SlotStep(m0, procs, spaces, m2, procs[i := pr], spaces[i := sp], i, all, vm.lo, vm.hi);
      procs, spaces := procs[i := pr], spaces[i := sp];
      return true;
    }

    /** Gives back everything slot i holds. */
    method Freeproc(i: nat)
      requires Valid() && i in procs
      modifies this, vm
      ensures Valid() && procs == old(procs) - {i} && spaces == old(spaces) - {i}
      ensures Free(vm.M()) == Free(old(vm.M())) + SlotPages(old(procs), old(spaces), i)
      ensures Frame(old(vm.ram), vm.ram, SlotPages(old(procs), old(spaces), i) + Free(old(vm.M())))
    {
      hide Sys, ProcOk, UserOk, Held, FreeOk, Free, Moves, Frame, Nodes, Owned, TopMapped;
      ghost var m0 := vm.M();
      InSlot(m0, procs, spaces, i, all, vm.lo, vm.hi);
      ghost var pr, sp := procs[i], spaces[i];
      vm.Kfree(procs[i].trapframe);
      ghost var m1 := vm.M();
      TrapframeGone(m0, pr, sp, m1, vm.lo, vm.hi);
      vm.ProcFreepagetable(procs[i].pagetable, procs[i].sz, sp);
      MovesTrans(m0, Holdings(pr, sp), m1, Owned(sp, Npages(pr.sz)), vm.M(), {});
      MovesFrame(m0, Holdings(pr, sp), vm.M(), {});
      SlotStep(m0, procs, spaces, vm.M(), procs - {i}, spaces - {i}, i, all, vm.lo, vm.hi);
      procs, spaces := procs - {i}, spaces - {i};
    }

    /** fork's uvmcopy: fills slot j's empty memory from slot i's. */
    method CopyMemory(i: nat, j: nat) returns (ok: bool)
      requires Valid() && i in procs && j in procs && i != j && procs[j].sz == 0
      modifies this, vm
      ensures Valid() && procs == old(procs)[j := old(procs)[j].(sz := if ok then old(procs)[i].sz else 0)]
      ensures j in spaces && spaces == old(spaces)[j := spaces[j]]
      ensures j in old(spaces) && (ok <==> |old(vm.free)| >= PagesToGrow(TablesOf(old(spaces)[j]), 0, Npages(old(procs)[i].sz)))
      ensures Frame(old(vm.ram), vm.ram, SlotPages(old(procs), old(spaces), j) + Free(old(vm.M())))
      ensures ok ==> forall v :: 0 <= v < Npages(procs[i].sz) ==>
                View(vm.ram, spaces[j].leaf, v) == View(old(vm.ram), old(spaces)[i].leaf, v) != None
    {
      hide Sys, ProcOk, UserOk, Held, FreeOk, Free, Moves, Frame, Owned, TopMapped, Grown, View, Holdings, TablesOf, PagesToGrow;
      ghost var m1 := vm.M();
      InSlot(m1, procs, spaces, i, all, vm.lo, vm.hi);
      InSlot(m1, procs, spaces, j, all, vm.lo, vm.hi);
      Neighbours(m1, procs, spaces, i, j, all, vm.lo, vm.hi);
      ghost var pr, sp := procs[j], spaces[j];
      ghost var sp';
      ok, sp' := vm.Uvmcopy(procs[i].pagetable, procs[j].pagetable, procs[i].sz, spaces[i], sp);
      var child := procs[j].(sz := if ok then procs[i].sz else 0);
      ProcGrown(m1, pr, sp, vm.M(), sp', child.sz, vm.lo, vm.hi);
      EmptyGrown(m1, sp, vm.M(), sp', Npages(child.sz), pr, vm.lo, vm.hi);
      SlotStep(m1, procs, spaces, vm.M(), procs[j := child], spaces[j := sp'], j, all, vm.lo, vm.hi);
      procs, spaces := procs[j := child], spaces[j := sp'];
    }

    /** fork's copy of the saved registers, with a0 cleared. */
    method CopyTrapframe(i: nat, j: nat)
      requires Valid() && i in procs && j in procs && i != j
      modifies vm
      ensures Valid() && Free(vm.M()) == Free(old(vm.M())) && Frame(old(vm.ram), vm.ram, {procs[j].trapframe})
      ensures procs[i].trapframe in old(vm.ram) && procs[j].trapframe in vm.ram
      ensures FrameCopied(old(vm.ram)[procs[i].trapframe], vm.ram[procs[j].trapframe])
    {
      hide Sys, ProcOk, UserOk, Held, FreeOk, Free, Moves, Frame, Owned, TopMapped, Holdings;
      ghost var m := vm.M();
      InSlot(m, procs, spaces, i, all, vm.lo, vm.hi);
      InSlot(m, procs, spaces, j, all, vm.lo, vm.hi);
      TrapframeThere(m, procs[i], spaces[i], vm.lo, vm.hi);
      TrapframeThere(m, procs[j], spaces[j], vm.lo, vm.hi);
      var mine, theirs := procs[j].trapframe, procs[i].trapframe;
      vm.ram := vm.ram[mine := CopiedFrame(vm.ram[theirs], vm.ram[mine])];
      TrapframeWritten(m, procs[j], spaces[j], vm.ram, vm.lo, vm.hi);
      SlotStep(m, procs, spaces, vm.M(), procs, spaces, j, all, vm.lo, vm.hi);
      FreeIsRest(m, vm.M(), procs, spaces, all, vm.lo, vm.hi);
    }

    /** freeproc of a slot that was unused in an earlier state: everything is as it
        was then. */
    method Abandon(j: nat, ghost m0: Mem, ghost procs0: map<nat, Proc>, ghost spaces0: map<nat, Space>)
      requires Valid() && Sys(m0, procs0, spaces0, all, vm.lo, vm.hi) && j in procs && j in spaces
      requires j !in procs0 && j !in spaces0 && procs - {j} == procs0 && spaces - {j} == spaces0
      requires Frame(m0.ram, vm.ram, Free(m0)) && SlotPages(procs, spaces, j) + Free(vm.M()) <= Free(m0)
      modifies this, vm
      ensures Valid() && procs == procs0 && spaces == spaces0
      ensures Free(vm.M()) == Free(m0) && Frame(m0.ram, vm.ram, Free(m0))
    {
      hide Sys, Free, Frame, SlotPages;
      SysFree(vm.M(), procs, spaces, all, vm.lo, vm.hi);
      ghost var m2, slot2 := vm.M(), SlotPages(procs, spaces, j);
      Freeproc(j);
      FrameTrans(m0.ram, m2.ram, vm.ram, Free(m0), slot2 + Free(m2), Free(m0));
      FreeIsRest(m0, vm.M(), procs0, spaces0, all, vm.lo, vm.hi);
    }

    /** fork up to the copied memory. A failure anywhere leaves the table and the
        set of free pages as they were. */
    method Duplicate(i: nat) returns (ok: bool, j: nat)
      requires Valid() && i in procs
      modifies this, vm
      ensures Valid() && Frame(old(vm.ram), vm.ram, Free(old(vm.M())))
      ensures ok <==> HasSlot(old(procs)) && |old(vm.free)| >= ForkCost(Npages(old(procs)[i].sz))
      ensures !ok ==> procs == old(procs) && spaces == old(spaces) && Free(vm.M()) == Free(old(vm.M()))
      ensures ok ==> j !in old(procs) && j in procs && j in spaces
      ensures ok ==> procs == old(procs)[j := procs[j]] && spaces == old(spaces)[j := spaces[j]]
      ensures ok ==> procs[j].sz == procs[i].sz && {procs[j].trapframe} <= Free(old(vm.M()))
      ensures ok ==> forall v :: 0 <= v < Npages(procs[i].sz) ==>
                View(vm.ram, spaces[j].leaf, v) == View(old(vm.ram), old(spaces)[i].leaf, v) != None
    {
      hide Sys, ProcOk, UserOk, Held, FreeOk, Free, Moves, Frame, Owned, TopMapped, View, Holdings, SlotPages, Npages, OnlySlot;
      hide TablesOf, TopTables, PagesToGrow, ForkCost, HasSlot;
      ghost var m0, procs0, spaces0 := vm.M(), procs, spaces;
      InSlot(m0, procs, spaces, i, all, vm.lo, vm.hi);
      FewPages(procs[i].sz);
      ForkCosts(Npages(procs[i].sz));
      ok, j := Allocproc();
      if !ok {
        FreeIsRest(m0, vm.M(), procs0, spaces0, all, vm.lo, vm.hi);
        return;
      }
      ghost var m1 := vm.M();
      AddedSlot(procs0, spaces0, procs, spaces, j);
      Pool(m0, procs0, spaces0, m1, procs, spaces, j, all, vm.lo, vm.hi);
      ghost var slot1 := SlotPages(procs, spaces, j);
      ok := CopyMemory(i, j);
      ghost var m2 := vm.M();
      FrameTrans(m0.ram, m1.ram, m2.ram, Free(m0), slot1 + Free(m1), Free(m0));
      AddedSlot(procs0, spaces0, procs, spaces, j);
      Pool(m0, procs0, spaces0, m2, procs, spaces, j, all, vm.lo, vm.hi);
      if !ok {
        Abandon(j, m0, procs0, spaces0);
        return;
      }
      forall v | 0 <= v < Npages(procs[i].sz)
        ensures View(vm.ram, spaces[j].leaf, v) == View(m0.ram, spaces0[i].leaf, v) != None
      {
        ViewStays(m0, procs0[i], spaces0[i], m1.ram, Free(m0), v, vm.lo, vm.hi);
      }
    }

    /** Copies slot i's memory and registers into an unused slot j; or, exactly when
        there is no slot or not enough memory, changes nothing that anyone holds. */
    method Fork(i: nat) returns (ok: bool, j: nat)
      requires Valid() && i in procs
      modifies this, vm
      ensures Valid() && Frame(old(vm.ram), vm.ram, Free(old(vm.M())))
      ensures ok <==> HasSlot(old(procs)) && |old(vm.free)| >= ForkCost(Npages(old(procs)[i].sz))
      ensures !ok ==> procs == old(procs) && spaces == old(spaces) && Free(vm.M()) == Free(old(vm.M()))
      ensures ok ==> j !in old(procs) && j in procs && j in spaces
      ensures ok ==> procs == old(procs)[j := procs[j]] && spaces == old(spaces)[j := spaces[j]]
      ensures ok ==> procs[j].sz == procs[i].sz
      ensures ok ==> forall v :: 0 <= v < Npages(procs[i].sz) ==>
                View(vm.ram, spaces[j].leaf, v) == View(old(vm.ram), old(spaces)[i].leaf, v) != None
      ensures ok ==> procs[i].trapframe in old(vm.ram) && procs[j].trapframe in vm.ram
      ensures ok ==> FrameCopied(old(vm.ram)[procs[i].trapframe], vm.ram[procs[j].trapframe])
    {
      hide Sys, ProcOk, UserOk, Held, FreeOk, Free, Moves, Frame, Owned, TopMapped, View, Holdings, FrameCopied, Npages, ForkCost, HasSlot;
      ghost var m0, procs0, spaces0 := vm.M(), procs, spaces;
      InSlot(m0, procs, spaces, i, all, vm.lo, vm.hi);
      ok, j := Duplicate(i);
      if !ok { return; }
      ghost var m2 := vm.M();
      InSlot(m2, procs, spaces, j, all, vm.lo, vm.hi);
      TrapframeStays(m0, procs0[i], spaces0[i], m2.ram, Free(m0), vm.lo, vm.hi);
      CopyTrapframe(i, j);
      FrameTrans(m0.ram, m2.ram, vm.ram, Free(m0), {procs[j].trapframe}, Free(m0));
      forall v | 0 <= v < Npages(procs[i].sz)
        ensures View(vm.ram, spaces[j].leaf, v) == View(m0.ram, spaces0[i].leaf, v) != None
      {
        ViewStays(m2, procs[j], spaces[j], vm.ram, {procs[j].trapframe}, v, vm.lo, vm.hi);
      }
    }

    /** Grows or shrinks slot i by `n` bytes, in 32-bit arithmetic. */
    method Growproc(i: nat, n: int) returns (ok: bool)
      requires Valid() && i in procs && -0x8000_0000 <= n < 0x8000_0000
      modifies this, vm
      ensures Valid() && procs == old(procs)[i := old(procs)[i].(sz := if ok then NewSize(old(procs)[i].sz, n) else old(procs)[i].sz)]
      ensures i in spaces && i in old(spaces) && spaces == old(spaces)[i := spaces[i]]
      ensures var sz := old(procs)[i].sz + n;
              procs[i].sz == if ok && 0 <= sz < 0x1_0000_0000 then sz else old(procs)[i].sz
      ensures var n0, n1 := Npages(old(procs)[i].sz), Npages(procs[i].sz);
              && (n <= 0 ==> n1 <= n0 && Free(vm.M()) == Free(old(vm.M())) + Pages(old(spaces)[i].leaf, n1, n0 - n1))
              && (ok && n > 0 ==> |vm.free| + PagesToGrow(TablesOf(old(spaces)[i]), n0, n1) == |old(vm.free)|)
      ensures var n0, n1 := Npages(old(procs)[i].sz), Npages(NewSize(old(procs)[i].sz, n));
              ok <==> n <= 0 || |old(vm.free)| >= PagesToGrow(TablesOf(old(spaces)[i]), n0, n1)
      ensures Frame(old(vm.ram), vm.ram, SlotPages(old(procs), old(spaces), i) + Free(old(vm.M())))
      ensures forall v :: 0 <= v < Npages(old(procs)[i].sz) && v < Npages(procs[i].sz) ==>
                View(vm.ram, spaces[i].leaf, v) == View(old(vm.ram), old(spaces)[i].leaf, v)
      ensures forall v :: Npages(old(procs)[i].sz) <= v < Npages(procs[i].sz) ==>
                View(vm.ram, spaces[i].leaf, v) == Some((Filled(0), 31))
    {
      hide Sys, ProcOk, UserOk, Held, FreeOk, Free, Moves, Frame, Owned, TopMapped, Grown, View, Holdings, Cut, Nodes, Pages, TablesOf, PagesToGrow;
      hide Npages, NewSize, Wrap;
      ghost var m := vm.M();
      InSlot(m, procs, spaces, i, all, vm.lo, vm.hi);
      NoGrowth(TablesOf(spaces[i]), Npages(procs[i].sz));
      FrameSame(vm.ram, SlotPages(procs, spaces, i) + Free(m));
      ghost var pr, sp, sp' := procs[i], spaces[i], spaces[i];
      var sz := procs[i].sz;
      Small(sz, n);
      SizeIs(sz, n);
      ok := true;
      if n > 0 {
        var r;
        r, sp' := vm.Uvmalloc(procs[i].pagetable, sz, Wrap(sz + n), sp);
        ok := r != 0;
        if ok { sz := r; }
        ProcGrown(m, pr, sp, vm.M(), sp', sz, vm.lo, vm.hi);
        GrownViews(m, pr, sp, vm.M(), sp', Npages(sz), vm.lo, vm.hi);
      } else if n < 0 {
        sz, sp' := vm.Uvmdealloc(procs[i].pagetable, sz, Wrap(sz + n), sp);
        ProcShrunk(m, pr, sp, vm.M(), sp', sz, vm.lo, vm.hi);
        FewerPages(sz, pr.sz);
        TailGained(m, sp, Npages(sz), Npages(pr.sz), vm.M(), sp', vm.lo, vm.hi);
      } else {
        NoTail(sp.leaf, Npages(sz));
        return;
      }
      var now := procs[i].(sz := sz);
      MovesFrame(m, Holdings(pr, sp), vm.M(), Holdings(now, sp'));
      SlotStep(m, procs, spaces, vm.M(), procs[i := now], spaces[i := sp'], i, all, vm.lo, vm.hi);
      procs, spaces := procs[i := now], spaces[i := sp'];
    }
  }

  lemma NoTail(leaf: map<nat, nat>, n: nat)
    ensures Pages(leaf, n, 0) == {}
  {}

  lemma NoGrowth(ts: Tables, n: nat)
    ensures PagesToGrow(ts, n, n) == 0
  {}

  lemma FewPages(sz: nat)
    requires sz < 0x1_0000_0000
    ensures Npages(sz) <= 0x10_0000
  {}

  /** uint arithmetic */
  function Wrap(x: int): (r: nat) { x % 0x1_0000_0000 }

  /** growproc's size arithmetic, as uvmalloc and uvmdealloc answer it. */
  function NewSize(sz: nat, n: int): (r: nat) {
    var t := Wrap(sz + n);
    if n > 0 then (if t < sz then sz else t) else if n < 0 then (if t < sz then t else sz) else sz
  }

  /** It is plain addition where the sum is a uint, and no change elsewhere. */
  lemma SizeIs(sz: nat, n: int)
    requires sz < 0x1_0000_0000 && -0x8000_0000 <= n < 0x8000_0000
    ensures NewSize(sz, n) == if 0 <= sz + n < 0x1_0000_0000 then sz + n else sz
    ensures n > 0 ==> NewSize(sz, n) == if Wrap(sz + n) < sz then sz else Wrap(sz + n)
    ensures n < 0 ==> NewSize(sz, n) == if Wrap(sz + n) < sz then Wrap(sz + n) else sz
    ensures n == 0 ==> NewSize(sz, n) == sz
  {}

  lemma Small(sz: nat, n: int)
    requires sz < 0x1_0000_0000
    ensures Npages(Wrap(sz + n)) <= UMAX && Npages(sz) <= UMAX
    ensures 0 < n < 0x8000_0000 && Wrap(sz + n) == 0 ==> sz > 0
  {
  }

  /** What was there before growing still shows. */
  lemma GrownViews(m: Mem, pr: Proc, sp: Space, m': Mem, sp': Space, n: nat, lo: nat, hi: nat)
    requires ProcOk(m, pr, sp, lo, hi) && Grown(m, sp, Npages(pr.sz), m', sp', n, lo, hi)
    ensures forall v :: 0 <= v < Npages(pr.sz) && v < n ==> View(m'.ram, sp'.leaf, v) == View(m.ram, sp.leaf, v)
    ensures FreeOk(m', lo, hi)
  {
    var n0 := Npages(pr.sz);
    forall v | 0 <= v < n0 && v < n ensures View(m'.ram, sp'.leaf, v) == View(m.ram, sp.leaf, v) {
      UserPage(m, sp, n0, v, lo, hi);
      assert v in Cut(sp'.leaf, n0, n - n0);
      ViewKept(m, sp, n0, m'.ram, sp'.leaf, v, lo, hi);
    }
    hide Moves, Frame, Owned, View, Rep, Apart, FreeOk;
  }

  lemma ProcShrunk(m: Mem, pr: Proc, sp: Space, m': Mem, sp': Space, sz: nat, lo: nat, hi: nat)
    requires ProcOk(m, pr, sp, lo, hi) && sz <= pr.sz && UserOk(m', sp', Npages(sz), lo, hi)
    requires Moves(m, Owned(sp, Npages(pr.sz)), m', Owned(sp', Npages(sz)))
    requires sp' == sp.(leaf := Cut(sp.leaf, Npages(sz), Npages(pr.sz) - Npages(sz)))
    requires Frame(m.ram, m'.ram, Nodes(sp) + Pages(sp.leaf, Npages(sz), Npages(pr.sz) - Npages(sz)) + Free(m))
    ensures ProcOk(m', pr.(sz := sz), sp', lo, hi) && Moves(m, Holdings(pr, sp), m', Holdings(pr.(sz := sz), sp'))
    ensures forall v :: 0 <= v < Npages(sz) ==> View(m'.ram, sp'.leaf, v) == View(m.ram, sp.leaf, v)
    ensures FreeOk(m', lo, hi)
  {
    hide UserOk, Moves, Frame, Owned, View, Free, Nodes, Pages, Cut, TopMapped, Ppn, Npages;
    var k, n, tf := Npages(sz), Npages(pr.sz), pr.trapframe;
    FewerPages(sz, pr.sz);
    CutTop(m, sp, k, n, lo, hi);
    MovesMore(m, Owned(sp, n), m', Owned(sp', k), {tf});
    assert tf in {tf};
    OwnedStays(m', sp', k, lo, hi);
    forall v | 0 <= v < k ensures View(m'.ram, sp'.leaf, v) == View(m.ram, sp.leaf, v) {
      CutView(m, sp, k, n, m'.ram, v, lo, hi);
    }
  }

  lemma FewerPages(a: nat, b: nat)
    requires a <= b
    ensures Npages(a) <= Npages(b)
  {
  }

  /** What the invariant says of one slot. */
  lemma InSlot(m: Mem, procs: map<nat, Proc>, spaces: map<nat, Space>, i: nat, all: set<nat>, lo: nat, hi: nat)
    requires Sys(m, procs, spaces, all, lo, hi) && i in procs
    ensures FreeOk(m, lo, hi) && i in spaces && ProcOk(m, procs[i], spaces[i], lo, hi)
    ensures lo <= procs[i].trapframe < hi && procs[i].trapframe !in m.free
    ensures UserOk(m, spaces[i], Npages(procs[i].sz), lo, hi) && TopMapped(spaces[i].leaf, Npages(procs[i].sz))
    ensures procs[i].pagetable == spaces[i].root && procs[i].sz < 0x1_0000_0000 && procs.Keys == spaces.Keys
  {
    hide UserOk, FreeOk, TopMapped, Held, Holdings;
  }

  lemma TrapframeGone(m: Mem, pr: Proc, sp: Space, m': Mem, lo: nat, hi: nat)
    requires ProcOk(m, pr, sp, lo, hi) && FreeOk(m', lo, hi)
    requires Free(m') == Free(m) + {pr.trapframe} && Frame(m.ram, m'.ram, {pr.trapframe})
    ensures UserOk(m', sp, Npages(pr.sz), lo, hi) && Moves(m, Holdings(pr, sp), m', Owned(sp, Npages(pr.sz)))
  {
    var n, tf := Npages(pr.sz), pr.trapframe;
    OwnedNotFree(m, sp, n, lo, hi);
    hide UserOk, Owned, FreeOk, Free, Frame, TopMapped, Ppn;
    GaveOne(m, Owned(sp, n), tf, m');
    GaveOne(m, {}, tf, m');
    Bystander(m, sp, n, {} + {tf}, m', {}, lo, hi);
  }

  lemma OwnedNotFree(m: Mem, sp: Space, n: nat, lo: nat, hi: nat)
    requires UserOk(m, sp, n, lo, hi)
    ensures Owned(sp, n) !! Free(m)
  {
    hide Rep, FreeOk, Nodes, Pages, Free, OwnPages;
  }

  lemma SysFree(m: Mem, procs: map<nat, Proc>, spaces: map<nat, Space>, all: set<nat>, lo: nat, hi: nat)
    requires Sys(m, procs, spaces, all, lo, hi)
    ensures FreeOk(m, lo, hi) && procs.Keys == spaces.Keys
  {
    hide FreeOk, ProcOk;
  }

  lemma FreeOne(m: Mem, p: nat, lo: nat, hi: nat)
    requires FreeOk(m, lo, hi) && Apart({p}, {}, m)
    ensures p !in m.free && {} !! Free(m) + {p}
  {
    assert p in {p};
    hide FreeOk;
  }

  lemma SysEmpty(m: Mem, all: set<nat>, lo: nat, hi: nat)
    requires FreeOk(m, lo, hi) && Free(m) == all
    ensures Sys(m, map[], map[], all, lo, hi)
  {
    hide FreeOk, Free, ProcOk, Holdings;
    assert Held(map[], map[]) == {};
  }

  lemma FrameSame(r: Ram, s: set<nat>)
    ensures Frame(r, r, s)
  {
  }

  lemma MovesFrame(m: Mem, a: set<nat>, m': Mem, a': set<nat>)
    requires Moves(m, a, m', a')
    ensures Frame(m.ram, m'.ram, a + Free(m))
    ensures a == {} ==> Frame(m.ram, m'.ram, Free(m))
    ensures a' == {} ==> Free(m') == Free(m) + a
  {
    hide Free;
  }

  /** Two slots share no page. */
  lemma Neighbours(m: Mem, procs: map<nat, Proc>, spaces: map<nat, Space>, i: nat, j: nat, all: set<nat>, lo: nat, hi: nat)
    requires Sys(m, procs, spaces, all, lo, hi) && i in procs && j in procs && i != j
    ensures Owned(spaces[i], Npages(procs[i].sz)) !! Owned(spaces[j], Npages(procs[j].sz))
  {
    hide FreeOk, ProcOk, Free, Held, Owned;
  }

  /** A process whose user memory grew is still in order. */
  lemma ProcGrown(m: Mem, pr: Proc, sp: Space, m': Mem, sp': Space, sz: nat, lo: nat, hi: nat)
    requires ProcOk(m, pr, sp, lo, hi) && Grown(m, sp, Npages(pr.sz), m', sp', Npages(sz), lo, hi) && sz < 0x1_0000_0000
    ensures ProcOk(m', pr.(sz := sz), sp', lo, hi)
    ensures Moves(m, Holdings(pr, sp), m', Holdings(pr.(sz := sz), sp'))
  {
    var n0, n, tf := Npages(pr.sz), Npages(sz), pr.trapframe;
    GrownTop(m, sp, n0, m', sp', n, lo, hi);
    hide UserOk, Owned, Free, Ppn, Frame, Moves, Npages, TopMapped, Cut;
    MovesMore(m, Owned(sp, n0), m', Owned(sp', n), {tf});
    assert tf in {tf};
  }

  /** Slot j and the free list together make up the same pages. */
  lemma PoolSame(m: Mem, procs: map<nat, Proc>, spaces: map<nat, Space>, m': Mem, procs': map<nat, Proc>, spaces': map<nat, Space>,
                 j: nat, all: set<nat>, lo: nat, hi: nat)
    requires Sys(m, procs, spaces, all, lo, hi) && Sys(m', procs', spaces', all, lo, hi)
    requires OnlySlot(procs, spaces, procs', spaces', j)
    ensures Free(m') + SlotPages(procs', spaces', j) == Free(m) + SlotPages(procs, spaces, j)
  {
    hide ProcOk, Holdings, FreeOk, Free, Held, SlotPages;
    HeldSplit(procs, spaces, j);
    HeldSplit(procs', spaces', j);
    assert procs' - {j} == procs - {j} && spaces' - {j} == spaces - {j};
    RestApart(procs, spaces, j);
    RestApart(procs', spaces', j);
    var rest := Held(procs - {j}, spaces - {j});
    assert Free(m) + SlotPages(procs, spaces, j) == all - rest;
    assert Free(m') + SlotPages(procs', spaces', j) == all - rest;
  }

  /** From an unused slot: what slot j holds now was free before. */
  lemma Pool(m: Mem, procs: map<nat, Proc>, spaces: map<nat, Space>, m': Mem, procs': map<nat, Proc>, spaces': map<nat, Space>,
             j: nat, all: set<nat>, lo: nat, hi: nat)
    requires Sys(m, procs, spaces, all, lo, hi) && Sys(m', procs', spaces', all, lo, hi)
    requires OnlySlot(procs, spaces, procs', spaces', j) && j !in procs && j in procs' && j in spaces'
    ensures SlotPages(procs', spaces', j) + Free(m') <= Free(m) && {procs'[j].trapframe} <= Free(m)
  {
    hide Sys, Free, Holdings, OnlySlot;
    SysFree(m, procs, spaces, all, lo, hi);
    SysFree(m', procs', spaces', all, lo, hi);
    PoolSame(m, procs, spaces, m', procs', spaces', j, all, lo, hi);
    HasTrapframe(procs'[j], spaces'[j]);
  }

  lemma AddedSlot(procs: map<nat, Proc>, spaces: map<nat, Space>, procs': map<nat, Proc>, spaces': map<nat, Space>, j: nat)
    requires procs.Keys == spaces.Keys && j !in procs && j in procs' && j in spaces'
    requires procs' == procs[j := procs'[j]] && spaces' == spaces[j := spaces'[j]]
    ensures OnlySlot(procs, spaces, procs', spaces', j) && procs' - {j} == procs && spaces' - {j} == spaces
  {
  }

  lemma HasTrapframe(pr: Proc, sp: Space)
    ensures pr.trapframe in Holdings(pr, sp)
  {
    hide Owned;
  }

  lemma EmptyGrown(m: Mem, sp: Space, m': Mem, sp': Space, n: nat, pr: Proc, lo: nat, hi: nat)
    requires Grown(m, sp, 0, m', sp', n, lo, hi) && pr.sz == 0
    ensures Frame(m.ram, m'.ram, Holdings(pr, sp) + Free(m)) && FreeOk(m', lo, hi)
  {
    NoUser(sp);
    hide Moves, Cut, Nodes, Free, Owned, Rep, Apart;
  }

  lemma TrapframeWritten(m: Mem, pr: Proc, sp: Space, ram': Ram, lo: nat, hi: nat)
    requires ProcOk(m, pr, sp, lo, hi) && FreeOk(m, lo, hi) && pr.trapframe in m.ram
    requires pr.trapframe in ram' && ram' == m.ram[pr.trapframe := ram'[pr.trapframe]]
    ensures ProcOk(m.(ram := ram'), pr, sp, lo, hi) && Moves(m, Holdings(pr, sp), m.(ram := ram'), Holdings(pr, sp))
    ensures FreeOk(m.(ram := ram'), lo, hi) && Frame(m.ram, ram', {pr.trapframe})
  {
    var n, tf, m' := Npages(pr.sz), pr.trapframe, m.(ram := ram');
    PageFilled(m, ram', tf, lo, hi);
    OwnedNotFree(m, sp, n, lo, hi);
    hide UserOk, Owned, FreeOk, Free, TopMapped, Ppn;
    assert Moves(m, {tf}, m', {tf});
    Bystander(m, sp, n, {tf}, m', {tf}, lo, hi);
  }

  /** Writes elsewhere do not show in a process's memory. */
  lemma ViewStays(m: Mem, pr: Proc, sp: Space, ram': Ram, s: set<nat>, v: nat, lo: nat, hi: nat)
    requires ProcOk(m, pr, sp, lo, hi) && Frame(m.ram, ram', s) && v < Npages(pr.sz) && (s == Free(m) || s == {pr.trapframe})
    ensures View(ram', sp.leaf, v) == View(m.ram, sp.leaf, v) != None
  {
    var n := Npages(pr.sz);
    OwnedNotFree(m, sp, n, lo, hi);
    UserPage(m, sp, n, v, lo, hi);
    hide UserOk, Free, TopMapped, Ppn, Pages, Nodes;
  }

  lemma TrapframeStays(m: Mem, pr: Proc, sp: Space, ram': Ram, s: set<nat>, lo: nat, hi: nat)
    requires ProcOk(m, pr, sp, lo, hi) && FreeOk(m, lo, hi) && Frame(m.ram, ram', s) && s == Free(m)
    ensures pr.trapframe in m.ram && pr.trapframe in ram' && ram'[pr.trapframe] == m.ram[pr.trapframe]
  {
    hide UserOk, Free, TopMapped, Ppn, Owned;
  }

  lemma TrapframeThere(m: Mem, pr: Proc, sp: Space, lo: nat, hi: nat)
    requires ProcOk(m, pr, sp, lo, hi) && FreeOk(m, lo, hi)
    ensures pr.trapframe in m.ram
  {
    hide UserOk, Free, TopMapped, Ppn, Owned;
  }
}
