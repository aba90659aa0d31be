/** kernel/kalloc.c and kernel/vm.c over physical memory. A page is named by its
    page number; page-table arguments and `mem` pointers are page numbers, 0 the
    null pointer. The ghost arguments name the address space a root stands for. */
module VirtualMemory {
  import opened PageTable
  import opened PageMemory
  import opened AddressSpaces
  import opened TableCosts
  import opened TableTrees

  const JUNK_FREE: nat := 0x0101010101010101
  const JUNK_USED: nat := 0x0505050505050505

  class Vm {
    var ram: Ram
    var freelist: nat
    ghost var free: seq<nat>
    const lo: nat
    const hi: nat

    ghost function M(): (m: Mem)
      reads this
    {
      Mem(ram, freelist, free)
    }

    ghost predicate Valid()
      reads this
    {
      FreeOk(M(), lo, hi)
    }

    /** kinit: every page from `end` to PHYSTOP becomes free. */
    constructor (first: nat, last: nat, contents: Ram)
      requires 0 < first <= last && forall p :: first <= p < last ==> p in contents
      ensures Valid() && lo == first && hi == last && Free(M()) == Span(first, last)
    {
      lo, hi, ram, freelist, free := first, last, contents, 0, [];
      new;
      EmptyList(M(), first, last);
      Freerange();
    }

    method Freerange()
      requires Valid() && free == [] && lo <= hi
      modifies this
      ensures Valid() && Free(M()) == Span(lo, hi)
    {
      hide FreeOk, Free, Frame, Span;
      EmptyList(M(), lo, hi);
      SpanNext(lo, lo);
      var p := lo;
      while p < hi
        invariant lo <= p <= hi && Valid() && Free(M()) == Span(lo, p)
      {
        SpanNext(lo, p);
        NotFree(M(), p);
        Kfree(p);
        p := p + 1;
      }
    }

    /** Panics outside [end, PHYSTOP). A page that is free already is not noticed, and
        its list then never ends. */
    method Kfree(p: nat)
      requires Valid() && lo <= p < hi
      modifies this
      ensures p !in old(free) ==> Valid() && free == [p] + old(free) && Free(M()) == Free(old(M())) + {p}
      ensures p in old(free) ==> free == [p] + old(free) && !Valid()
      ensures Frame(old(ram), ram, {p}) && p in ram && ram[p] == Filled(JUNK_FREE)[0 := old(freelist)] && freelist == p * PGSIZE
    {
      if p !in free {
        Give(M(), p, JUNK_FREE, Mem(ram[p := Filled(JUNK_FREE)[0 := freelist]], p * PGSIZE, [p] + free), lo, hi);
      } else {
        Twice(M(), p, lo, hi);
      }
      ram := ram[p := Filled(JUNK_FREE)];
      ram := ram[p := ram[p][0 := freelist]];
      freelist := p * PGSIZE;
      free := [p] + free;
    }

    method Kalloc() returns (p: nat)
      requires Valid()
      modifies this
      ensures Valid()
      ensures p == 0 <==> old(free) == []
      ensures p == 0 ==> M() == old(M())
      ensures p != 0 ==> lo <= p < hi && p in old(ram) && p == old(free)[0]
      ensures p != 0 ==> M() == Mem(old(ram)[p := Filled(JUNK_USED)], old(ram)[p][0], old(free)[1..])
      ensures p != 0 ==> Free(M()) == Free(old(M())) - {p} && p in Free(old(M()))
    {
      p := freelist / PGSIZE;
      if p != 0 {
        Take(M(), p, JUNK_USED, Mem(ram[p := Filled(JUNK_USED)], ram[p][0], free[1..]), lo, hi);
        freelist := ram[p][0];
        ram := ram[p := Filled(JUNK_USED)];
        free := free[1..];
      }
    }

    /** The page holding the PTE for `va`, or 0; its index there is PX(0, va). */
    method Walk(root: nat, va: nat, alloc: bool, ghost sp: Space) returns (table: nat, ghost sp': Space)
      requires SpaceOk(M(), sp, lo, hi) && root == sp.root && va < MAXVA
      modifies this
      ensures SpaceOk(M(), sp', lo, hi) && sp'.root == root && sp'.leaf == sp.leaf
      ensures Moves(old(M()), Nodes(sp), M(), Nodes(sp'))
      ensures table != 0 ==> OnPath(sp', 0, Vpn(va), table)
      ensures table == 0 ==> Up(Vpn(va)) !in sp'.lows && (alloc ==> free == [])
      ensures !alloc ==> sp' == sp && M() == old(M())
      ensures alloc ==> (table != 0 <==> |old(free)| >= Lack(TablesOf(sp), Vpn(va)))
      ensures alloc && table != 0 ==> |free| + Lack(TablesOf(sp), Vpn(va)) == |old(free)|
      ensures alloc && table != 0 ==> TablesOf(sp') == Plus(TablesOf(sp), Vpn(va))
    {
      hide Moves, FreeOk, Shape, RootOk, MidOk, LowOk, Nodes, Up, Px, Vpn, Key, Pte, Present;
      hide TablesOf, Plus, Lack, Reached, Spent;
      ghost var ts := TablesOf(sp);
      WalkStart(ts, Vpn(va));
      MovesNone(M(), sp, lo, hi);
      table, sp' := root, sp;
      var level := 2;
      while level > 0
        invariant level <= 2
        invariant SpaceOk(M(), sp', lo, hi) && sp'.root == root && sp'.leaf == sp.leaf
        invariant Moves(old(M()), Nodes(sp), M(), Nodes(sp'))
        invariant OnPath(sp', level, Vpn(va), table)
        invariant !alloc ==> sp' == sp && M() == old(M())
        invariant TablesOf(sp') == Reached(ts, Vpn(va), level) && |free| + Spent(ts, Vpn(va), level) == |old(free)|
      {
        EntryAt(ram, sp', level, va, table);
        var i := Px(level, va);
        var pte := ram[table][i];
        if Present(pte) {
          table := Ppn(pte);
          WalkDown(ts, sp', Vpn(va), level);
        } else {
          if !alloc {
            NoPath(sp', level, Vpn(va));
            return 0, sp';
          }
          ghost var m := M();
          var p := Kalloc();
          WalkNew(ts, sp', Vpn(va), level, p);
          if p == 0 {
            NoPath(sp', level, Vpn(va));
            return 0, sp';
          }
          ram := ram[p := Filled(0)];
          ram := ram[table := ram[table][i := Pte(p, 0)]];
          ghost var sp1 := WithKid(sp', level, Key(level, Vpn(va)), p);
          Extend(m, sp', level, va, table, p, M(), sp1, lo, hi);
          MovesTrans(old(M()), Nodes(sp), m, Nodes(sp'), M(), Nodes(sp1));
          sp', table := sp1, p;
        }
        level := level - 1;
      }
      PathPage(M(), sp', 0, Vpn(va), table, lo, hi);
    }

    /** Maps [va, va + size) to consecutive pages from `pa`; `done` pages are
        mapped when a table cannot be allocated. Panics on a mapped page. */
    method Mappages(root: nat, va: nat, size: nat, pa: nat, perm: nat, ghost sp: Space)
      returns (ok: bool, ghost sp': Space, ghost done: nat)
      requires SpaceOk(M(), sp, lo, hi) && root == sp.root && 0 < size && va + size <= MAXVA
      requires perm < 1024 && IsLeaf(perm)
      requires forall v :: Vpn(va) <= v <= Vpn(va + size - 1) ==> v !in sp.leaf
      modifies this
      ensures SpaceOk(M(), sp', lo, hi) && sp'.root == root && Moves(old(M()), Nodes(sp), M(), Nodes(sp'))
      ensures sp'.leaf == MapRange(sp.leaf, Vpn(va), done, Vpn(pa), perm)
      ensures done <= Vpn(va + size - 1) + 1 - Vpn(va)
      ensures ok <==> done == Vpn(va + size - 1) + 1 - Vpn(va)
      ensures !ok ==> free == []
      ensures var n := Vpn(va + size - 1) + 1 - Vpn(va);
              && (ok <==> |old(free)| >= Lacks(TablesOf(sp), Vpn(va), n))
              && (ok ==> |free| + Lacks(TablesOf(sp), Vpn(va), n) == |old(free)|)
              && (ok ==> TablesOf(sp') == PlusAll(TablesOf(sp), Vpn(va), n))
    {
      hide Moves, SpaceOk, Nodes, Up, Ix, Px, OnPath, Key, Pte, Present, Leaf, IsLeaf, TablesOf, Plus, Lack, PlusAll, Lacks;
      ghost var ts := TablesOf(sp);
      LacksNext(ts, Vpn(va), 0);
      MovesNone(M(), sp, lo, hi);
      sp', done := sp, 0;
      var a, last, q := va / PGSIZE * PGSIZE, (va + size - 1) / PGSIZE * PGSIZE, pa;
      while true
        invariant SpaceOk(M(), sp', lo, hi) && sp'.root == root && Moves(old(M()), Nodes(sp), M(), Nodes(sp'))
        invariant sp'.leaf == MapRange(sp.leaf, Vpn(va), done, Vpn(pa), perm)
        invariant a == (Vpn(va) + done) * PGSIZE <= last && q == pa + done * PGSIZE
        invariant TablesOf(sp') == PlusAll(ts, Vpn(va), done) && |free| + Lacks(ts, Vpn(va), done) == |old(free)|
        decreases last - a
      {
        var v := Vpn(va) + done;
        MapAt(sp.leaf, Vpn(va), done, Vpn(pa), perm, v);
        ghost var m0, sp0 := M(), sp';
        LacksNext(ts, Vpn(va), done);
        LacksMore(ts, Vpn(va), done + 1, Vpn(va + size - 1) + 1 - Vpn(va));
        var table;
        table, sp' := Walk(root, a, true, sp');
        MovesTrans(old(M()), Nodes(sp), m0, Nodes(sp0), M(), Nodes(sp'));
        if table == 0 { return false, sp', done; }
        LoadLeaf(M(), sp', v, table, lo, hi);
        PxDigits(a);
        PteFields(q / PGSIZE, perm);
        ghost var m1, sp1 := M(), sp';
        ram := ram[table := ram[table][Px(0, a) := Pte(q / PGSIZE, perm)]];
        sp' := sp'.(leaf := PutLeaf(sp'.leaf, v, Pte(q / PGSIZE, perm)));
        SameTables(sp1, sp');
        StoreLeaf(m1, sp1, v, Pte(q / PGSIZE, perm), table, M(), sp', lo, hi);
        MovesTrans(old(M()), Nodes(sp), m1, Nodes(sp1), M(), Nodes(sp'));
        done := done + 1;
        if a == last { return true, sp', done; }
        a, q := a + PGSIZE, q + PGSIZE;
      }
      assert false;
    }

    /** One round of uvmunmap; panics where the page is not mapped or no leaf. */
    method UnmapPage(root: nat, a: nat, dofree: bool, ghost sp: Space, ghost left: set<nat>, ghost rest: set<nat>)
      returns (ghost sp': Space)
      requires SpaceOk(M(), sp, lo, hi) && root == sp.root && a < MAXVA && Vpn(a) in sp.leaf
      requires InRange(left, lo, hi) && Apart(left, Nodes(sp), M())
      requires if dofree then left == rest + {Ppn(sp.leaf[Vpn(a)])} && Ppn(sp.leaf[Vpn(a)]) !in rest else left == rest
      modifies this
      ensures sp' == sp.(leaf := sp.leaf - {Vpn(a)}) && SpaceOk(M(), sp', lo, hi)
      ensures InRange(rest, lo, hi) && Apart(rest, Nodes(sp'), M())
      ensures Moves(old(M()), Nodes(sp) + left, M(), Nodes(sp') + rest)
    {
      hide Moves, SpaceOk, Nodes, Up, Ix, Px, OnPath, Key, Present, LeafWord, Free, Ppn, Apart, Vpn, InRange, Frame;
      var table;
      table, sp' := Walk(root, a, false, sp);
      LeafHasTable(M(), sp', Vpn(a), lo, hi);
      LoadLeaf(M(), sp', Vpn(a), table, lo, hi);
      PxDigits(a);
      if dofree {
        var p := Ppn(ram[table][Px(0, a)]);
        OnePage(M(), sp, left, rest, p, lo, hi);
        Kfree(p);
        Freed(old(M()), sp, rest, p, M(), lo, hi);
      } else {
        UnmapStarts(M(), sp, left, lo, hi);
      }
      ghost var m1 := M();
      PathPage(m1, sp, 0, Vpn(a), table, lo, hi);
      ram := ram[table := ram[table][Px(0, a) := 0]];
      sp' := sp.(leaf := PutLeaf(sp.leaf, Vpn(a), 0));
      StoreLeaf(m1, sp, Vpn(a), 0, table, M(), sp', lo, hi);
      MovesMore(m1, Nodes(sp), M(), Nodes(sp'), rest);
      MovesTrans(old(M()), Nodes(sp) + left, m1, Nodes(sp) + rest, M(), Nodes(sp') + rest);
    }

    method Uvmunmap(root: nat, va: nat, npages: nat, dofree: bool, ghost sp: Space, ghost pages: set<nat>)
      returns (ghost sp': Space)
      requires SpaceOk(M(), sp, lo, hi) && root == sp.root && va % PGSIZE == 0 && va + npages * PGSIZE <= MAXVA
      requires forall v :: Vpn(va) <= v < Vpn(va) + npages ==> v in sp.leaf
      requires pages == if dofree then Pages(sp.leaf, Vpn(va), npages) else {}
      requires InRange(pages, lo, hi) && Apart(pages, Nodes(sp), M()) && (dofree ==> OwnPages(sp.leaf, Vpn(va), npages))
      modifies this
      ensures sp' == sp.(leaf := Cut(sp.leaf, Vpn(va), npages)) && SpaceOk(M(), sp', lo, hi)
      ensures Moves(old(M()), Nodes(sp) + pages, M(), Nodes(sp'))
    {
      hide Moves, SpaceOk, Nodes, Cut, Pages, Free, OwnPages, Ppn, Apart, Vpn, InRange;
      sp' := sp;
      ghost var i, left, v0 := 0, pages, Vpn(va);
      CutNext(sp.leaf, v0, 0);
      UnmapStarts(M(), sp, pages, lo, hi);
      var a := va;
      while a < va + npages * PGSIZE
        invariant i <= npages && a == va + i * PGSIZE
        invariant sp' == sp.(leaf := Cut(sp.leaf, v0, i)) && SpaceOk(M(), sp', lo, hi)
        invariant left == if dofree then Pages(sp.leaf, v0 + i, npages - i) else {}
        invariant dofree ==> OwnPages(sp.leaf, v0 + i, npages - i)
        invariant InRange(left, lo, hi) && Apart(left, Nodes(sp'), M())
        invariant Moves(old(M()), Nodes(sp) + pages, M(), Nodes(sp') + left)
      {
        ghost var v, m0, sp0, was := v0 + i, M(), sp', left;
        PageStep(va, i, npages, a);
        CutAt(sp.leaf, v0, i, v);
        CutNext(sp.leaf, v0, i);
        if dofree {
          PagesNext(sp.leaf, v, npages - i);
          left := Pages(sp.leaf, v + 1, npages - i - 1);
        }
        sp' := UnmapPage(root, a, dofree, sp', was, left);
        MovesTrans(old(M()), Nodes(sp) + pages, m0, Nodes(sp0) + was, M(), Nodes(sp') + left);
        i, a := i + 1, a + PGSIZE;
      }
      PageStep(va, i, npages, a);
      NoPages(sp.leaf, v0 + i, left, Nodes(sp'));
    }

    /** Shrinks user memory to `newsz`, freeing the pages above. */
    method Uvmdealloc(root: nat, oldsz: nat, newsz: nat, ghost sp: Space) returns (r: nat, ghost sp': Space)
      requires UserOk(M(), sp, Npages(oldsz), lo, hi) && root == sp.root
      modifies this
      ensures r == if newsz < oldsz then newsz else oldsz
      ensures sp' == sp.(leaf := Cut(sp.leaf, Npages(r), Npages(oldsz) - Npages(r)))
      ensures UserOk(M(), sp', Npages(r), lo, hi) && Moves(old(M()), Owned(sp, Npages(oldsz)), M(), Owned(sp', Npages(r)))
      ensures Frame(old(ram), ram, Nodes(sp) + Pages(sp.leaf, Npages(r), Npages(oldsz) - Npages(r)) + Free(old(M())))
    {
      hide UserOk, Owned, Pages, Nodes, SpaceOk, Moves, Cut, Apart, InRange, OwnPages, Free, Vpn;
      sp' := sp;
      CutNext(sp.leaf, Npages(oldsz), 0);
      OwnedStays(M(), sp, Npages(oldsz), lo, hi);
      if newsz >= oldsz { return oldsz, sp; }
      var k, n := Npages(newsz), Npages(oldsz);
      if k < n {
        TailFree(M(), sp, k, n, lo, hi);
        sp' := Uvmunmap(root, k * PGSIZE, n - k, true, sp, Pages(sp.leaf, k, n - k));
        TailFreed(old(M()), sp, k, n, M(), sp', lo, hi);
      }
      return newsz, sp';
    }

    /** kalloc, then memset or memmove over the whole page. */
    method KallocFilled(content: Page) returns (p: nat)
      requires Valid()
      modifies this
      ensures Valid()
      ensures p == 0 ==> M() == old(M()) && free == []
      ensures p != 0 ==> |free| + 1 == |old(free)|
      ensures p != 0 ==> lo <= p < hi && p in ram && ram[p] == content && Frame(old(ram), ram, {p})
      ensures p != 0 ==> Free(M()) == Free(old(M())) - {p} && p in Free(old(M()))
    {
      p := Kalloc();
      if p != 0 {
        ghost var m := M();
        ram := ram[p := content];
        PageFilled(m, ram, p, lo, hi);
      }
    }

    /** Maps `mem` as user page `n`, or gives it back. */
    method MapPage(root: nat, n: nat, mem: nat, perm: nat, ghost sp: Space, ghost m0: Mem)
      returns (ok: bool, ghost sp': Space)
      requires UserOk(m0, sp, n, lo, hi) && root == sp.root && n < UMAX && perm < 1024 && IsLeaf(perm)
      requires Valid() && lo <= mem < hi && mem in Free(m0) && Free(M()) == Free(m0) - {mem} && Frame(m0.ram, ram, {mem})
      modifies this
      ensures sp'.root == root && UserOk(M(), sp', if ok then n + 1 else n, lo, hi)
      ensures Moves(m0, Owned(sp, n), M(), Owned(sp', if ok then n + 1 else n))
      ensures sp'.leaf == if ok then sp.leaf[n := Pte(mem, perm)] else sp.leaf
      ensures ok ==> Frame(old(ram), ram, Nodes(sp) + Free(old(M())))
      ensures !ok ==> Frame(old(ram), ram, Nodes(sp) + Free(old(M())) + {mem})
      ensures ok <==> |old(free)| >= Lack(TablesOf(sp), n)
      ensures ok ==> |free| + Lack(TablesOf(sp), n) == |old(free)| && TablesOf(sp') == Plus(TablesOf(sp), n)
    {
      hide UserOk, Pages, Nodes, SpaceOk, Apart, InRange, OwnPages, Pte, IsLeaf, Free, FreeOk, Frame, Vpn;
      hide TablesOf, Plus, Lack, PlusAll, Lacks;
      LacksNext(TablesOf(sp), n, 0);
      ghost var m1, u, done := M(), Pages(sp.leaf, 0, n), 0;
      PageReady(m0, sp, n, mem, m1, lo, hi);
      NextFree(m0, sp, n, lo, hi);
      ok, sp', done := Mappages(root, n * PGSIZE, PGSIZE, mem * PGSIZE, perm, sp);
      PageNumber(mem);
      ghost var m2 := M();
      MovesMore(m1, Nodes(sp), m2, Nodes(sp'), u + {mem});
      assert Frame(m1.ram, m2.ram, Nodes(sp) + Free(m1));
      hide Moves;
      MovesTrans(m0, Owned(sp, n), m1, Nodes(sp) + (u + {mem}), m2, Nodes(sp') + (u + {mem}));
      if ok {
        PageMapped(m0, sp, n, mem, perm, m2, sp', lo, hi);
      } else {
        OnePage(m2, sp', u + {mem}, u, mem, lo, hi);
        Kfree(mem);
        Freed(m2, sp', u, mem, M(), lo, hi);
        PageBack(m0, sp, n, M(), sp', lo, hi);
        MovesTrans(m0, Owned(sp, n), m2, Nodes(sp') + (u + {mem}), M(), Nodes(sp') + u);
        FrameTrans(m1.ram, m2.ram, ram, Nodes(sp) + Free(m1), {mem}, Nodes(sp) + Free(m1) + {mem});
      }
    }

    /** One round of uvmalloc and of uvmcopy. */
    method AddPage(root: nat, n: nat, content: Page, perm: nat, ghost sp: Space)
      returns (ok: bool, ghost sp': Space, ghost p: nat)
      requires UserOk(M(), sp, n, lo, hi) && root == sp.root && n < UMAX && perm < 1024 && IsLeaf(perm)
      modifies this
      ensures sp'.root == root && UserOk(M(), sp', if ok then n + 1 else n, lo, hi)
      ensures Moves(old(M()), Owned(sp, n), M(), Owned(sp', if ok then n + 1 else n))
      ensures Frame(old(ram), ram, Nodes(sp) + Free(old(M())))
      ensures sp'.leaf == if ok then sp.leaf[n := Pte(p, perm)] else sp.leaf
      ensures ok ==> p in ram && ram[p] == content && p in Free(old(M()))
      ensures ok <==> |old(free)| >= 1 + Lack(TablesOf(sp), n)
      ensures ok ==> |free| + 1 + Lack(TablesOf(sp), n) == |old(free)| && TablesOf(sp') == Plus(TablesOf(sp), n)
    {
      hide UserOk, Owned, Nodes, Moves, Pte, IsLeaf, Free, Frame, FreeOk, TablesOf, Plus, Lack;
      ghost var m0 := M();
      OwnedStays(m0, sp, n, lo, hi);
      var mem := KallocFilled(content);
      if mem == 0 { return false, sp, 0; }
      ghost var m1 := M();
      ok, sp' := MapPage(root, n, mem, perm, sp, m0);
      p := mem;
      PageKept(m0, sp, n, p, m1, M(), ok, lo, hi);
    }

    /** Grows user memory with zeroed pages; returns 0, with the old memory as it
        was, when a page cannot be had. */
    method Uvmalloc(root: nat, oldsz: nat, newsz: nat, ghost sp: Space) returns (r: nat, ghost sp': Space)
      requires UserOk(M(), sp, Npages(oldsz), lo, hi) && root == sp.root && Npages(newsz) <= UMAX
      modifies this
      ensures if newsz < oldsz then r == oldsz && M() == old(M()) else r == newsz || r == 0
      ensures Grown(old(M()), sp, Npages(oldsz), M(), sp', if r == 0 then Npages(oldsz) else Npages(r), lo, hi)
      ensures r == 0 ==> sp'.leaf == sp.leaf
      ensures newsz >= oldsz && newsz > 0 ==>
                (r == newsz <==> |old(free)| >= PagesToGrow(TablesOf(sp), Npages(oldsz), Npages(newsz)))
      ensures newsz >= oldsz && r == newsz > 0 ==>
                |free| + PagesToGrow(TablesOf(sp), Npages(oldsz), Npages(newsz)) == |old(free)|
      ensures forall v :: Npages(oldsz) <= v < Npages(r) ==> View(ram, sp'.leaf, v) == Some((Filled(0), 31))
    {
      hide UserOk, Grown, Nodes, Moves, Cut, Pages, Free, Frame, View, TablesOf, Plus, Lack, PlusAll, Lacks;
      GrownStart(M(), sp, Npages(oldsz), lo, hi);
      ghost var ts := TablesOf(sp);
      LacksNext(ts, Npages(oldsz), 0);
      sp' := sp;
      if newsz < oldsz { return oldsz, sp; }
      ghost var m0 := M();
      var n0 := Npages(oldsz);
      var n := n0;
      while n * PGSIZE < newsz
        invariant n0 <= n && (n == n0 || n <= Npages(newsz)) && (n == n0 ==> sp' == sp)
        invariant Grown(m0, sp, n0, M(), sp', n, lo, hi)
        invariant TablesOf(sp') == PlusAll(ts, n0, n - n0) && |free| + PagesToGrow(ts, n0, n) == |m0.free|
        invariant forall v :: n0 <= v < n ==> View(ram, sp'.leaf, v) == Some((Filled(0), 31))
      {
        ghost var m1, sp1, p := M(), sp', 0;
        var ok;
        SizeStep(n, newsz);
        LacksNext(ts, n0, n - n0);
        LacksMore(ts, n0, n + 1 - n0, Npages(newsz) - n0);
        GrownOk(m0, sp, n0, m1, sp1, n, lo, hi);
        ok, sp', p := AddPage(root, n, Filled(0), 30, sp1);
        GrownNext(m0, sp, n0, m1, sp1, n, M(), sp', if ok then n + 1 else n, Pte(p, 30), lo, hi);
        if !ok {
          ghost var m2, sp2 := M(), sp';
          GrownOk(m0, sp, n0, m2, sp2, n, lo, hi);
          var q;
          q, sp' := Uvmdealloc(root, n * PGSIZE, n0 * PGSIZE, sp2);
          GrownUndone(m0, sp, n0, m2, sp2, n, M(), sp', lo, hi);
          return 0, sp';
        }
        forall v | n0 <= v < n + 1 ensures View(ram, sp'.leaf, v) == Some((Filled(0), 31)) {
          ViewAdded(m1, sp1, n, ram, sp'.leaf, p, 30, v, lo, hi);
        }
        n := n + 1;
      }
      SizeStep(n, newsz);
      return newsz, sp';
    }

    /** Copies user memory into an empty address space. On failure the new space
        is empty again; panics where a page of the old one is missing. */
    method Uvmcopy(oldroot: nat, newroot: nat, sz: nat, ghost po: Space, ghost sp: Space)
      returns (ok: bool, ghost sp': Space)
      requires UserOk(M(), po, Npages(sz), lo, hi) && oldroot == po.root
      requires UserOk(M(), sp, 0, lo, hi) && newroot == sp.root && Owned(po, Npages(sz)) !! Owned(sp, 0)
      modifies this
      ensures Grown(old(M()), sp, 0, M(), sp', if ok then Npages(sz) else 0, lo, hi)
      ensures UserOk(M(), po, Npages(sz), lo, hi)
      ensures ok ==> forall v :: 0 <= v < Npages(sz) ==>
                View(ram, sp'.leaf, v) == View(ram, po.leaf, v) == View(old(ram), po.leaf, v) != None
      ensures !ok ==> sp'.leaf == sp.leaf
      ensures ok <==> |old(free)| >= PagesToGrow(TablesOf(sp), 0, Npages(sz))
    {
      hide UserOk, Grown, Nodes, Moves, Cut, Pages, Free, Frame, View, Owned, SpaceOk, Apart, TablesOf, Plus, Lack, PlusAll, Lacks;
      ghost var m0, k, ts := M(), Npages(sz), TablesOf(sp);
      LacksNext(ts, 0, 0);
      GrownStart(m0, sp, 0, lo, hi);
      sp' := sp;
      var n := 0;
      while n * PGSIZE < sz
        invariant n <= k && Grown(m0, sp, 0, M(), sp', n, lo, hi)
        invariant TablesOf(sp') == PlusAll(ts, 0, n) && |free| + PagesToGrow(ts, 0, n) == |m0.free|
        invariant forall v :: 0 <= v < n ==> View(ram, sp'.leaf, v) == View(m0.ram, po.leaf, v)
      {
        ghost var m1, sp1, p := M(), sp', 0;
        SizeStep(n, sz);
        LacksNext(ts, 0, n);
        LacksMore(ts, 0, n + 1, k);
        GrownOk(m0, sp, 0, m1, sp1, n, lo, hi);
        Onlooker(m0, sp, 0, m1, sp1, n, po, k, lo, hi);
        SameView(m0, po, k, ram, n, lo, hi);
        ParentPage(m1, po, k, n, lo, hi);
        ghost var same;
        var table, added;
        table, same := Walk(oldroot, n * PGSIZE, false, po);
        LeafHasTable(M(), po, n, lo, hi);
        LoadLeaf(M(), po, n, table, lo, hi);
        PxDigits(n * PGSIZE);
        var pte := ram[table][Px(0, n * PGSIZE)];
        CopiedFlags(pte);
        added, sp', p := AddPage(newroot, n, ram[Ppn(pte)], Flags(pte), sp1);
        GrownNext(m0, sp, 0, m1, sp1, n, M(), sp', if added then n + 1 else n, Pte(p, Flags(pte)), lo, hi);
        if !added {
          ghost var m2, sp2 := M(), sp';
          GrownOk(m0, sp, 0, m2, sp2, n, lo, hi);
          TailFree(m2, sp2, 0, n, lo, hi);
          sp' := Uvmunmap(newroot, 0, n, true, sp2, Pages(sp2.leaf, 0, n));
          TailFreed(m2, sp2, 0, n, M(), sp', lo, hi);
          GrownUndone(m0, sp, 0, m2, sp2, n, M(), sp', lo, hi);
          Onlooker(m0, sp, 0, M(), sp', 0, po, k, lo, hi);
          return false, sp';
        }
        forall v | 0 <= v < n + 1 ensures View(ram, sp'.leaf, v) == View(m0.ram, po.leaf, v) {
          ViewAdded(m1, sp1, n, ram, sp'.leaf, p, Flags(pte), v, lo, hi);
        }
        n := n + 1;
      }
      SizeStep(n, sz);
      Onlooker(m0, sp, 0, M(), sp', n, po, k, lo, hi);
      forall v | 0 <= v < k ensures View(ram, po.leaf, v) == View(m0.ram, po.leaf, v) != None {
        SameView(m0, po, k, ram, v, lo, hi);
      }
      return true, sp';
    }

    /** Frees the tables of a subtree that holds no leaf; panics on a leaf. The
        ghost arguments say which subtree, and how memory looked at the start. */
    method Freewalk(table: nat, ghost ram0: Ram, ghost sp: Space, ghost level: nat, ghost key: nat)
      requires Rep(ram0, sp) && sp.leaf == map[] && level <= 2 && HasTable(sp, level, key)
      requires table == TableAt(sp, level, key) && Intact(M(), ram0, sp, level, key, lo, hi)
      modifies this
      ensures Valid() && Free(M()) == Free(old(M())) + Sub(sp, level, key)
      ensures Frame(old(ram), ram, Sub(sp, level, key))
      decreases level
    {
      hide Rep, FreeOk, Free, Sub, Below, Intact, Walked, HasTable, TableAt, ChildKey, Pte, Ppn, Present, IsLeaf, Frame;
      ghost var m0 := M();
      WalkedStart(m0, ram0, sp, level, key, lo, hi);
      for i := 0 to 512
        invariant Walked(m0, ram0, sp, level, key, M(), i, lo, hi)
      {
        EntryWord(ram0, sp, level, key, i);
        WalkedEntry(m0, ram0, sp, level, key, M(), i, lo, hi);
        ghost var m1 := M();
        var pte := ram[table][i];
        if Present(pte) && !IsLeaf(pte) {
          var child := Ppn(pte);
          WalkedChild(m0, ram0, sp, level, key, m1, i, lo, hi);
          Freewalk(child, ram0, sp, level - 1, ChildKey(level, key, i));
          SubApart(m1, ram, table, Sub(sp, level - 1, ChildKey(level, key, i)));
          WalkedNext(m0, ram0, sp, level, key, m1, i, M(), lo, hi);
          ghost var m2 := M();
          TableNotFree(m0, ram0, sp, level, key, m2, i + 1, lo, hi);
          ram := ram[table := ram[table][i := 0]];
          WalkedZeroed(m0, ram0, sp, level, key, m2, i + 1, ram, lo, hi);
        } else if Present(pte) {
          assert false;
        } else {
          WalkedNext(m0, ram0, sp, level, key, m1, i, m1, lo, hi);
        }
      }
      TableNotFree(m0, ram0, sp, level, key, M(), 512, lo, hi);
      ghost var m3 := M();
      WalkedFacts(m0, ram0, sp, level, key, m3, lo, hi);
      Kfree(table);
      FrameTrans(m0.ram, m3.ram, ram, Below(sp, level, key, 512) + {table}, {table}, Below(sp, level, key, 512) + {table});
    }

    method Uvmcreate() returns (root: nat, ghost sp: Space)
      requires Valid()
      modifies this
      ensures Valid()
      ensures root == 0 ==> M() == old(M()) && free == []
      ensures root != 0 ==> sp == Space(root, map[], map[], map[]) && UserOk(M(), sp, 0, lo, hi)
      ensures root != 0 ==> Moves(old(M()), {}, M(), Nodes(sp)) && |free| + 1 == |old(free)|
    {
      hide FreeOk, Free, Moves, UserOk, Nodes, Frame;
      root := KallocFilled(Filled(0));
      sp := Space(root, map[], map[], map[]);
      if root != 0 { EmptySpace(old(M()), root, M(), sp, lo, hi); }
    }

    /** Frees user memory and then the tables, every page once. */
    method Uvmfree(root: nat, sz: nat, ghost sp: Space)
      requires UserOk(M(), sp, Npages(sz), lo, hi) && root == sp.root && OnlyUser(sp.leaf, Npages(sz))
      modifies this
      ensures Valid() && Moves(old(M()), Owned(sp, Npages(sz)), M(), {})
    {
      hide UserOk, Owned, Pages, Nodes, SpaceOk, Moves, Cut, Apart, InRange, OwnPages, Free, FreeOk, Vpn, Frame, Intact, Sub, OnlyUser, Rep;
      ghost var m0, n, sp' := M(), Npages(sz), sp;
      AllCut(sp.leaf, n);
      OwnedStays(m0, sp, n, lo, hi);
      TailFree(m0, sp, 0, n, lo, hi);
      CutNext(sp.leaf, 0, 0);
      if sz > 0 {
        sp' := Uvmunmap(root, 0, Npages(sz), true, sp, Pages(sp.leaf, 0, n));
        TailFreed(m0, sp, 0, n, M(), sp', lo, hi);
      }
      ghost var m1 := M();
      NoUser(sp');
      TailFree(m1, sp', 0, 0, lo, hi);
      WholeTree(m1, sp', lo, hi);
      SpaceRep(m1, sp', lo, hi);
      Freewalk(root, ram, sp', 2, 0);
      TreeFreed(m1, sp', M(), lo, hi);
      MovesTrans(m0, Owned(sp, n), m1, Nodes(sp'), M(), {});
    }

    /** An address space holding only the trampoline and the trapframe page, or 0
        with every page given back. */
    method ProcPagetable(tf: nat, trampoline: nat) returns (root: nat, ghost sp: Space)
      requires Valid()
      modifies this
      ensures Valid()
      ensures root == 0 ==> Moves(old(M()), {}, M(), {})
      ensures root != 0 <==> |old(free)| >= 3
      ensures root != 0 ==> |free| + 3 == |old(free)| && TablesOf(sp) == TopTables()
      ensures root != 0 ==> sp.root == root && UserOk(M(), sp, 0, lo, hi) && Moves(old(M()), {}, M(), Nodes(sp))
      ensures root != 0 ==> sp.leaf == map[UMAX + 1 := Pte(trampoline, 10), UMAX := Pte(tf, 6)]
    {
      hide FreeOk, Free, Moves, UserOk, Nodes, Frame, SpaceOk, Pte, Owned, OnlyUser, Apart, InRange, Cut, OwnPages, Pages;
      hide TablesOf, Plus, Lack, PlusAll, Lacks, TopTables;
      ghost var m0, done, none := M(), 0, Tables({}, {});
      TrampolineCosts();
      LacksNext(none, UMAX + 1, 0);
      root, sp := Uvmcreate();
      if root == 0 {
        NoMoves(m0, lo, hi);
        return;
      }
      ghost var m1, sp1 := M(), sp;
      var ok;
      TopStart(m1, sp1, lo, hi);
      NoTables(root, sp1);
      ok, sp, done := Mappages(root, (UMAX + 1) * PGSIZE, PGSIZE, trampoline * PGSIZE, 10, sp1);
      PageNumber(trampoline);
      ghost var m2, sp2 := M(), sp;
      MovesTrans(m0, {}, m1, Nodes(sp1), m2, Nodes(sp2));
      TopEdited(m1, sp1, 0, m2, sp2, lo, hi);
      if !ok {
        NothingLeft(m2, sp2, lo, hi);
        Uvmfree(root, 0, sp2);
        MovesTrans(m0, {}, m2, Nodes(sp2), M(), {});
        root := 0;
        return;
      }
      LacksNext(TopTables(), UMAX, 0);
      ok, sp, done := Mappages(root, UMAX * PGSIZE, PGSIZE, tf * PGSIZE, 6, sp2);
      PageNumber(tf);
      ghost var m3, sp3 := M(), sp;
      MovesTrans(m0, {}, m2, Nodes(sp2), m3, Nodes(sp3));
      TopEdited(m2, sp2, 0, m3, sp3, lo, hi);
      if !ok {
        NoneApart(m3, Nodes(sp3), lo, hi);
        sp := Uvmunmap(root, (UMAX + 1) * PGSIZE, 1, false, sp3, {});
        TopCut(sp3.leaf, sp.leaf, UMAX + 1);
        ghost var m4 := M();
        MovesTrans(m0, {}, m3, Nodes(sp3), m4, Nodes(sp));
        TopEdited(m3, sp3, 0, m4, sp, lo, hi);
        NothingLeft(m4, sp, lo, hi);
        Uvmfree(root, 0, sp);
        MovesTrans(m0, {}, m4, Nodes(sp), M(), {});
        root := 0;
        TrapframeCosts();
        assert false;
      } else {
        OwnedStays(m3, sp3, 0, lo, hi);
        TrapframeCosts();
      }
    }

    /** Undoes ProcPagetable and frees user memory; the trapframe page stays. */
    method ProcFreepagetable(root: nat, sz: nat, ghost sp: Space)
      requires UserOk(M(), sp, Npages(sz), lo, hi) && root == sp.root && TopMapped(sp.leaf, Npages(sz))
      modifies this
      ensures Valid() && Moves(old(M()), Owned(sp, Npages(sz)), M(), {})
    {
      hide FreeOk, Free, Moves, UserOk, Nodes, Frame, SpaceOk, Pte, Owned, OnlyUser, Apart, InRange, Cut, OwnPages, Pages, TopMapped;
      ghost var m0, n := M(), Npages(sz);
      ghost var sp1, sp2;
      TopOf(m0, sp, n, lo, hi);
      NoneApart(m0, Nodes(sp), lo, hi);
      sp1 := Uvmunmap(root, (UMAX + 1) * PGSIZE, 1, false, sp, {});
      ghost var m1 := M();
      TopCut(sp.leaf, sp1.leaf, UMAX + 1);
      TopEdited(m0, sp, n, m1, sp1, lo, hi);
      NoneApart(m1, Nodes(sp1), lo, hi);
      sp2 := Uvmunmap(root, UMAX * PGSIZE, 1, false, sp1, {});
      ghost var m2 := M();
      TopCut(sp1.leaf, sp2.leaf, UMAX);
      TopEdited(m1, sp1, n, m2, sp2, lo, hi);
      MovesTrans(m0, Owned(sp, n), m1, Owned(sp1, n), m2, Owned(sp2, n));
      TopGone(sp.leaf, sp2.leaf, n);
      Uvmfree(root, sz, sp2);
      MovesTrans(m0, Owned(sp, n), m2, Owned(sp2, n), M(), {});
    }
  }
}
