/** Who owns which page of a user address space (kernel/vm.c, kernel/proc.c). */
module AddressSpaces {
  import opened PageTable
  import opened PageMemory

  /** The page number of TRAPFRAME: user memory lies below. */
  const UMAX: nat := 0x3ff_fffe

  /** PGROUNDUP(sz) / PGSIZE */
  function Npages(sz: nat): (n: nat) { (sz + PGSIZE - 1) / PGSIZE }

  /** An address space with user pages 0..n, each backed by a page of its own. */
  predicate UserOk(m: Mem, sp: Space, n: nat, lo: nat, hi: nat) {
    && SpaceOk(m, sp, lo, hi) && n <= UMAX && OwnPages(sp.leaf, 0, n)
    && (forall v :: n <= v < UMAX ==> v !in sp.leaf)
    && InRange(Pages(sp.leaf, 0, n), lo, hi) && Apart(Pages(sp.leaf, 0, n), Nodes(sp), m)
  }

  /** Everything a process's page table and user memory occupy. */
  function Owned(sp: Space, n: nat): (s: set<nat>) { Nodes(sp) + Pages(sp.leaf, 0, n) }

  // ----- shrinking -----

  lemma SplitPages(leaf: map<nat, nat>, k: nat, n: nat)
    requires k <= n && OwnPages(leaf, 0, n)
    ensures Pages(leaf, 0, n) == Pages(leaf, 0, k) + Pages(leaf, k, n - k)
    ensures Pages(leaf, 0, k) !! Pages(leaf, k, n - k) && OwnPages(leaf, 0, k) && OwnPages(leaf, k, n - k)
  {
    hide Ppn;
  }

  /** The tail of user memory may be unmapped and freed. */
  lemma TailFree(m: Mem, sp: Space, k: nat, n: nat, lo: nat, hi: nat)
    requires UserOk(m, sp, n, lo, hi) && k <= n
    ensures OwnPages(sp.leaf, k, n - k) && InRange(Pages(sp.leaf, k, n - k), lo, hi)
    ensures Apart(Pages(sp.leaf, k, n - k), Nodes(sp), m)
    ensures SpaceOk(m, sp, lo, hi) && (forall v :: k <= v < n ==> v in sp.leaf)
    ensures Vpn(k * PGSIZE) == k && k * PGSIZE + (n - k) * PGSIZE <= MAXVA
  {
    SplitPages(sp.leaf, k, n);
    hide Pages, Nodes, SpaceOk;
  }

  /** The leaves below k after the others are cut. */
  lemma CutUser(m: Mem, sp: Space, k: nat, n: nat, leaf: map<nat, nat>, lo: nat, hi: nat)
    requires UserOk(m, sp, n, lo, hi) && k <= n && leaf == Cut(sp.leaf, k, n - k)
    ensures Pages(leaf, 0, k) == Pages(sp.leaf, 0, k) && OwnPages(leaf, 0, k) && forall v :: k <= v < UMAX ==> v !in leaf
    ensures Pages(sp.leaf, 0, n) == Pages(sp.leaf, 0, k) + Pages(sp.leaf, k, n - k)
    ensures Apart(Pages(sp.leaf, 0, k), Nodes(sp) + Pages(sp.leaf, k, n - k), m) && InRange(Pages(sp.leaf, 0, k), lo, hi)
  {
    hide SpaceOk;
    SplitPages(sp.leaf, k, n);
    PagesAgree(sp.leaf, leaf, 0, k);
    hide Pages, Nodes, Free, OwnPages;
  }

  lemma TailFreed(m: Mem, sp: Space, k: nat, n: nat, m': Mem, sp': Space, lo: nat, hi: nat)
    requires UserOk(m, sp, n, lo, hi) && k <= n && SpaceOk(m', sp', lo, hi)
    requires sp' == sp.(leaf := Cut(sp.leaf, k, n - k))
    requires Moves(m, Nodes(sp) + Pages(sp.leaf, k, n - k), m', Nodes(sp'))
    ensures UserOk(m', sp', k, lo, hi) && Moves(m, Owned(sp, n), m', Owned(sp', k))
    ensures Frame(m.ram, m'.ram, Nodes(sp) + Pages(sp.leaf, k, n - k) + Free(m))
  {
    hide SpaceOk, Pages, OwnPages, Free, Cut, Nodes;
    assert Frame(m.ram, m'.ram, Nodes(sp) + Pages(sp.leaf, k, n - k) + Free(m));
    CutUser(m, sp, k, n, sp'.leaf, lo, hi);
    var head, tail := Pages(sp.leaf, 0, k), Pages(sp.leaf, k, n - k);
    MovesMore(m, Nodes(sp) + tail, m', Nodes(sp'), head);
    hide Moves;
    assert Nodes(sp) + tail + head == Owned(sp, n);
  }

  /** Shrinking gives exactly the pages of the tail to the free list. */
  lemma TailGained(m: Mem, sp: Space, k: nat, n: nat, m': Mem, sp': Space, lo: nat, hi: nat)
    requires UserOk(m, sp, n, lo, hi) && k <= n && sp' == sp.(leaf := Cut(sp.leaf, k, n - k))
    requires Moves(m, Owned(sp, n), m', Owned(sp', k))
    ensures Free(m') == Free(m) + Pages(sp.leaf, k, n - k)
  {
    hide SpaceOk, Pages, OwnPages, Free, Cut, InRange, Frame;
    CutUser(m, sp, k, n, sp'.leaf, lo, hi);
    TailApart(m, sp, k, n, lo, hi);
    assert Nodes(sp') == Nodes(sp);
    hide Nodes;
    var a, tail := Nodes(sp) + Pages(sp.leaf, 0, k), Pages(sp.leaf, k, n - k);
    assert a + Free(m') == a + tail + Free(m);
    assert a !! Free(m') && a !! tail + Free(m);
  }

  lemma TailApart(m: Mem, sp: Space, k: nat, n: nat, lo: nat, hi: nat)
    requires UserOk(m, sp, n, lo, hi) && k <= n
    ensures Nodes(sp) + Pages(sp.leaf, 0, k) !! Pages(sp.leaf, k, n - k) + Free(m)
  {
    SplitPages(sp.leaf, k, n);
    hide Pages, Nodes, Free, OwnPages, Rep, FreeOk;
  }

  lemma PagesAgree(a: map<nat, nat>, b: map<nat, nat>, v: nat, n: nat)
    requires forall u :: v <= u < v + n ==> (u in a <==> u in b) && (u in a ==> a[u] == b[u])
    ensures Pages(a, v, n) == Pages(b, v, n) && (OwnPages(a, v, n) ==> OwnPages(b, v, n))
  {
    hide Ppn;
    forall q ensures q in Pages(a, v, n) <==> q in Pages(b, v, n) {
      if q in Pages(a, v, n) { var u :| v <= u < v + n && u in a && Ppn(a[u]) == q; assert u in b; }
      if q in Pages(b, v, n) { var u :| v <= u < v + n && u in b && Ppn(b[u]) == q; assert u in a; }
    }
  }

  // ----- growing -----

  /** Taking a page off the free list. */
  lemma Taken(m: Mem, sp: Space, u: set<nat>, p: nat, m': Mem, lo: nat, hi: nat)
    requires SpaceOk(m, sp, lo, hi) && Apart(u, Nodes(sp), m) && FreeOk(m', lo, hi)
    requires p in Free(m) && Free(m') == Free(m) - {p} && Frame(m.ram, m'.ram, {p})
    ensures SpaceOk(m', sp, lo, hi) && Apart(u + {p}, Nodes(sp), m') && p !in u && p !in Nodes(sp)
    ensures Moves(m, Nodes(sp) + u, m', Nodes(sp) + (u + {p}))
  {
    hide FreeOk, Free, Rep;
    NodesInRam(m.ram, sp);
    RepFrame(m.ram, sp, m'.ram);
    hide Nodes;
  }

  /** A new leaf at the top of user memory. */
  lemma PageAdded(leaf: map<nat, nat>, n: nat, p: nat, perm: nat, leaf': map<nat, nat>)
    requires OwnPages(leaf, 0, n) && p !in Pages(leaf, 0, n) && perm < 1024 && leaf' == leaf[n := Pte(p, perm)]
    ensures OwnPages(leaf', 0, n + 1) && Pages(leaf', 0, n + 1) == Pages(leaf, 0, n) + {p} && Ppn(leaf'[n]) == p
  {
    PteFields(p, perm);
    hide Ppn, Pte;
    forall q ensures q in Pages(leaf', 0, n + 1) <==> q in Pages(leaf, 0, n) || q == p {
      if q in Pages(leaf, 0, n) {
        var u :| 0 <= u < n && u in leaf && Ppn(leaf[u]) == q;
        assert leaf'[u] == leaf[u];
      }
      if q == p { assert n in leaf'; }
    }
    forall u | 0 <= u < n ensures Ppn(leaf'[u]) != p { assert Ppn(leaf[u]) in Pages(leaf, 0, n); }
  }

  /** Before mapping: page `p`, with its contents, waits beside user memory. */
  lemma PageReady(m: Mem, sp: Space, n: nat, p: nat, m': Mem, lo: nat, hi: nat)
    requires UserOk(m, sp, n, lo, hi) && FreeOk(m', lo, hi) && p in Free(m) && lo <= p < hi
    requires Free(m') == Free(m) - {p} && Frame(m.ram, m'.ram, {p})
    ensures SpaceOk(m', sp, lo, hi) && p !in Pages(sp.leaf, 0, n)
    ensures InRange(Pages(sp.leaf, 0, n) + {p}, lo, hi) && Apart(Pages(sp.leaf, 0, n) + {p}, Nodes(sp), m')
    ensures Moves(m, Owned(sp, n), m', Nodes(sp) + (Pages(sp.leaf, 0, n) + {p}))
  {
    hide Pages, SpaceOk, Apart;
    Taken(m, sp, Pages(sp.leaf, 0, n), p, m', lo, hi);
  }

  /** After mapping failed and `p` went back. */
  lemma PageBack(m: Mem, sp: Space, n: nat, m': Mem, sp': Space, lo: nat, hi: nat)
    requires UserOk(m, sp, n, lo, hi) && sp'.leaf == sp.leaf && SpaceOk(m', sp', lo, hi)
    requires Apart(Pages(sp.leaf, 0, n), Nodes(sp'), m')
    ensures UserOk(m', sp', n, lo, hi)
  {
    hide Pages, SpaceOk, Apart;
  }

  /** After mapping succeeded. */
  lemma PageMapped(m: Mem, sp: Space, n: nat, p: nat, perm: nat, m': Mem, sp': Space, lo: nat, hi: nat)
    requires UserOk(m, sp, n, lo, hi) && n < UMAX && perm < 1024 && p !in Pages(sp.leaf, 0, n) && SpaceOk(m', sp', lo, hi)
    requires sp'.leaf == sp.leaf[n := Pte(p, perm)]
    requires InRange(Pages(sp.leaf, 0, n) + {p}, lo, hi) && Apart(Pages(sp.leaf, 0, n) + {p}, Nodes(sp'), m')
    ensures UserOk(m', sp', n + 1, lo, hi) && Owned(sp', n + 1) == Nodes(sp') + (Pages(sp.leaf, 0, n) + {p})
    ensures Ppn(sp'.leaf[n]) == p
  {
    PageAdded(sp.leaf, n, p, perm, sp'.leaf);
    hide Pages, SpaceOk, Apart, OwnPages, Pte;
  }

  lemma OwnedStays(m: Mem, sp: Space, n: nat, lo: nat, hi: nat)
    requires UserOk(m, sp, n, lo, hi)
    ensures Moves(m, Owned(sp, n), m, Owned(sp, n)) && Frame(m.ram, m.ram, Nodes(sp) + Free(m)) && FreeOk(m, lo, hi)
  {
  }

  lemma PageFilled(m: Mem, ram': Ram, p: nat, lo: nat, hi: nat)
    requires FreeOk(m, lo, hi) && p !in Free(m) && p in m.ram && ram'.Keys == m.ram.Keys
    requires forall q :: q in m.ram && q != p ==> ram'[q] == m.ram[q]
    ensures FreeOk(m.(ram := ram'), lo, hi) && Free(m.(ram := ram')) == Free(m)
  {
    FreeInRam(m, lo, hi);
    assert forall q :: q in m.free ==> q in Free(m);
    FreeKept(m, ram', lo, hi);
  }

  lemma PageNumber(p: nat)
    ensures Vpn(p * PGSIZE) == p
  {
  }

  /** The new page came off the free list and mapping it did not touch it. */
  lemma PageKept(m: Mem, sp: Space, n: nat, p: nat, m1: Mem, m2: Mem, ok: bool, lo: nat, hi: nat)
    requires UserOk(m, sp, n, lo, hi) && p in Free(m) && Free(m1) == Free(m) - {p} && Frame(m.ram, m1.ram, {p})
    requires p in m1.ram
    requires Frame(m1.ram, m2.ram, if ok then Nodes(sp) + Free(m1) else Nodes(sp) + Free(m1) + {p})
    ensures Frame(m.ram, m2.ram, Nodes(sp) + Free(m)) && p in m2.ram && (ok ==> m2.ram[p] == m1.ram[p])
  {
    hide Free, Nodes, Pages, OwnPages, InRange;
  }

  /** The next user page is not mapped. */
  lemma NextFree(m: Mem, sp: Space, n: nat, lo: nat, hi: nat)
    requires UserOk(m, sp, n, lo, hi) && n < UMAX
    ensures n !in sp.leaf && Vpn(n * PGSIZE) == n == Vpn(n * PGSIZE + PGSIZE - 1) && n * PGSIZE + PGSIZE <= MAXVA
  {
    hide SpaceOk, OwnPages, InRange, Apart, Pages;
  }

  // ----- what user code sees -----

  /** The contents and permissions of user page `v`. */
  function View(ram: Ram, leaf: map<nat, nat>, v: nat): (r: Option<(Page, nat)>) {
    if v in leaf && Ppn(leaf[v]) in ram then Some((ram[Ppn(leaf[v])], Flags(leaf[v]))) else None
  }

  lemma PageBelow(sz: nat, va: nat)
    ensures Vpn(va) < Npages(sz) <==> va / PGSIZE * PGSIZE < sz
  {
  }

  /** A process of `sz` bytes: the hardware translates exactly the user addresses on
      a page that begins below sz, so every one below sz. */
  lemma SizeMapped(m: Mem, sp: Space, sz: nat, va: nat, lo: nat, hi: nat)
    requires UserOk(m, sp, Npages(sz), lo, hi) && va < UMAX * PGSIZE
    ensures Lookup(m.ram, sp.root, va).Some? <==> va / PGSIZE * PGSIZE < sz
    ensures va < sz ==> Lookup(m.ram, sp.root, va).Some?
  {
    PageBelow(sz, va);
    assert va / PGSIZE * PGSIZE <= va;
    assert Vpn(va) < UMAX;
    hide Npages, Lookup;
    Refines(m.ram, sp, va);
  }

  /** Writing tables and free pages does not show. */
  lemma ViewKept(m: Mem, sp: Space, n: nat, ram': Ram, leaf': map<nat, nat>, v: nat, lo: nat, hi: nat)
    requires UserOk(m, sp, n, lo, hi) && v < n && Frame(m.ram, ram', Nodes(sp) + Free(m))
    requires v in leaf' && v in sp.leaf && leaf'[v] == sp.leaf[v]
    ensures View(ram', leaf', v) == View(m.ram, sp.leaf, v)
  {
    assert Ppn(sp.leaf[v]) in Pages(sp.leaf, 0, n);
    hide SpaceOk, OwnPages, InRange, Nodes, Free, Pages, Ppn;
  }

  /** After a page was added, the old pages look as before and the new one as
      asked for. */
  lemma ViewAdded(m: Mem, sp: Space, n: nat, ram': Ram, leaf': map<nat, nat>, p: nat, perm: nat, v: nat, lo: nat, hi: nat)
    requires UserOk(m, sp, n, lo, hi) && Frame(m.ram, ram', Nodes(sp) + Free(m)) && perm < 1024
    requires leaf' == sp.leaf[n := Pte(p, perm)] && p in ram' && v <= n
    ensures View(ram', leaf', v) == if v < n then View(m.ram, sp.leaf, v) else Some((ram'[p], Pte(0, perm)))
  {
    hide SpaceOk, InRange, Nodes, Free, Pages, Ppn, Pte, Flags, Apart, Frame, IsLeaf, Present;
    PteFields(p, perm);
    if v < n {
      assert v in sp.leaf;
      hide UserOk, View;
      ViewKept(m, sp, n, ram', leaf', v, lo, hi);
    }
  }

  /** `sp` grew from `sp0` by user pages n0..n and tables. */
  predicate Grown(m0: Mem, sp0: Space, n0: nat, m: Mem, sp: Space, n: nat, lo: nat, hi: nat) {
    && UserOk(m0, sp0, n0, lo, hi) && UserOk(m, sp, n, lo, hi) && n0 <= n && sp.root == sp0.root
    && Cut(sp.leaf, n0, n - n0) == sp0.leaf
    && Moves(m0, Owned(sp0, n0), m, Owned(sp, n)) && Frame(m0.ram, m.ram, Nodes(sp0) + Free(m0))
  }

  lemma GrownStart(m: Mem, sp: Space, n: nat, lo: nat, hi: nat)
    requires UserOk(m, sp, n, lo, hi)
    ensures Grown(m, sp, n, m, sp, n, lo, hi)
  {
    CutNext(sp.leaf, n, 0);
    OwnedStays(m, sp, n, lo, hi);
    hide UserOk;
  }

  /** The pages that may change are those grown over and the free ones. */
  lemma Cancel(a: set<nat>, p0: set<nat>, p1: set<nat>, f: set<nat>, a0: set<nat>, f0: set<nat>)
    requires a + (p0 + p1) + f == a0 + p0 + f0 && p0 !! a + p1 + f && p0 !! a0 + f0
    ensures a + p1 + f == a0 + f0
  {
    forall q ensures q in a + p1 + f <==> q in a0 + f0 {
      assert q in a + (p0 + p1) + f <==> q in a0 + p0 + f0;
    }
  }

  lemma UserApart(m: Mem, sp: Space, n: nat, lo: nat, hi: nat)
    requires UserOk(m, sp, n, lo, hi)
    ensures Pages(sp.leaf, 0, n) !! Nodes(sp) + Free(m) && OwnPages(sp.leaf, 0, n)
  {
    hide Pages, Nodes, Free, SpaceOk, OwnPages, InRange;
  }

  lemma GrownFrame(m0: Mem, sp0: Space, n0: nat, m: Mem, sp: Space, n: nat, lo: nat, hi: nat)
    requires Grown(m0, sp0, n0, m, sp, n, lo, hi)
    ensures Nodes(sp) + Pages(sp.leaf, n0, n - n0) + Free(m) == Nodes(sp0) + Free(m0)
  {
    hide UserOk, Pages, Nodes, Free, OwnPages, Frame;
    UserApart(m, sp, n, lo, hi);
    UserApart(m0, sp0, n0, lo, hi);
    SplitPages(sp.leaf, n0, n);
    GrownHead(sp0.leaf, sp.leaf, n0, n);
    Cancel(Nodes(sp), Pages(sp.leaf, 0, n0), Pages(sp.leaf, n0, n - n0), Free(m), Nodes(sp0), Free(m0));
  }

  lemma GrownHead(leaf0: map<nat, nat>, leaf: map<nat, nat>, n0: nat, n: nat)
    requires n0 <= n && Cut(leaf, n0, n - n0) == leaf0
    ensures Pages(leaf0, 0, n0) == Pages(leaf, 0, n0)
  {
    PagesAgree(leaf0, leaf, 0, n0);
    hide Pages, OwnPages;
  }

  lemma GrownNext(m0: Mem, sp0: Space, n0: nat, m: Mem, sp: Space, n: nat, m': Mem, sp': Space, n': nat, w: nat, lo: nat, hi: nat)
    requires Grown(m0, sp0, n0, m, sp, n, lo, hi) && UserOk(m', sp', n', lo, hi) && sp'.root == sp.root
    requires Moves(m, Owned(sp, n), m', Owned(sp', n')) && Frame(m.ram, m'.ram, Nodes(sp) + Free(m))
    requires (n' == n && sp'.leaf == sp.leaf) || (n' == n + 1 && sp'.leaf == sp.leaf[n := w] && n < UMAX)
    ensures Grown(m0, sp0, n0, m', sp', n', lo, hi)
  {
    hide Owned, UserOk, Pages, Nodes, Free, Moves, Frame, Cut;
    if n' == n + 1 {
      NextFree(m, sp, n, lo, hi);
      CutGrow(sp.leaf, n0, n, w);
    }
    GrownFrame(m0, sp0, n0, m, sp, n, lo, hi);
    MovesTrans(m0, Owned(sp0, n0), m, Owned(sp, n), m', Owned(sp', n'));
    FrameTrans(m0.ram, m.ram, m'.ram, Nodes(sp0) + Free(m0), Nodes(sp) + Free(m), Nodes(sp0) + Free(m0));
  }

  lemma CutGrow(leaf: map<nat, nat>, n0: nat, n: nat, w: nat)
    requires n0 <= n && n !in leaf
    ensures Cut(leaf[n := w], n0, n + 1 - n0) == Cut(leaf, n0, n - n0)
  {
  }

  /** Giving the growth back. */
  lemma GrownUndone(m0: Mem, sp0: Space, n0: nat, m: Mem, sp: Space, n: nat, m': Mem, sp': Space, lo: nat, hi: nat)
    requires Grown(m0, sp0, n0, m, sp, n, lo, hi) && UserOk(m', sp', n0, lo, hi)
    requires sp' == sp.(leaf := Cut(sp.leaf, n0, n - n0)) && Moves(m, Owned(sp, n), m', Owned(sp', n0))
    requires Frame(m.ram, m'.ram, Nodes(sp) + Pages(sp.leaf, n0, n - n0) + Free(m))
    ensures Grown(m0, sp0, n0, m', sp', n0, lo, hi) && sp'.leaf == sp0.leaf
  {
    GrownFrame(m0, sp0, n0, m, sp, n, lo, hi);
    CutNext(sp'.leaf, n0, 0);
    hide Owned, UserOk, Pages, Nodes, Free, Cut;
    MovesTrans(m0, Owned(sp0, n0), m, Owned(sp, n), m', Owned(sp', n0));
    FrameTrans(m0.ram, m.ram, m'.ram, Nodes(sp0) + Free(m0), Nodes(sp0) + Free(m0), Nodes(sp0) + Free(m0));
  }

  lemma GrownOk(m0: Mem, sp0: Space, n0: nat, m: Mem, sp: Space, n: nat, lo: nat, hi: nat)
    requires Grown(m0, sp0, n0, m, sp, n, lo, hi)
    ensures UserOk(m, sp, n, lo, hi) && sp.root == sp0.root
  {
    hide UserOk;
  }

  lemma SizeStep(n: nat, sz: nat)
    ensures n * PGSIZE < sz <==> n < Npages(sz)
    ensures Npages(n * PGSIZE) == n
  {
  }

  // ----- bystanders -----

  /** An address space whose pages are not involved stays as it is. */
  lemma Bystander(m: Mem, po: Space, n: nat, a: set<nat>, m': Mem, a': set<nat>, lo: nat, hi: nat)
    requires UserOk(m, po, n, lo, hi) && Moves(m, a, m', a') && Owned(po, n) !! a && FreeOk(m', lo, hi)
    ensures UserOk(m', po, n, lo, hi) && Owned(po, n) !! a'
    ensures forall q :: q in Owned(po, n) && q in m.ram ==> q in m'.ram && m'.ram[q] == m.ram[q]
  {
    hide FreeOk, Free, Pages, OwnPages, InRange, Rep, Nodes;
    NodesInRam(m.ram, po);
    RepFrame(m.ram, po, m'.ram);
  }

  lemma SameView(m: Mem, po: Space, n: nat, ram': Ram, v: nat, lo: nat, hi: nat)
    requires UserOk(m, po, n, lo, hi) && v < n
    requires forall q :: q in Owned(po, n) && q in m.ram ==> q in ram' && ram'[q] == m.ram[q]
    ensures v in po.leaf && Ppn(po.leaf[v]) in ram' && View(ram', po.leaf, v) == View(m.ram, po.leaf, v)
    ensures View(ram', po.leaf, v) == Some((ram'[Ppn(po.leaf[v])], Flags(po.leaf[v])))
  {
    UserPage(m, po, n, v, lo, hi);
    hide UserOk, Nodes, Pages, Ppn, Flags;
  }

  lemma UserPage(m: Mem, po: Space, n: nat, v: nat, lo: nat, hi: nat)
    requires UserOk(m, po, n, lo, hi) && v < n
    ensures v in po.leaf && Ppn(po.leaf[v]) in Pages(po.leaf, 0, n) && Ppn(po.leaf[v]) in m.ram
  {
    hide Rep, Nodes, Apart, Free;
  }

  lemma CopiedFlags(w: nat)
    requires LeafWord(w)
    ensures Flags(w) < 1024 && IsLeaf(Flags(w)) && Pte(0, Flags(w)) == Flags(w)
  {
    FlagBits(w / 1024, w % 1024);
  }

  lemma Onlooker(m0: Mem, sp0: Space, n0: nat, m: Mem, sp: Space, n: nat, po: Space, k: nat, lo: nat, hi: nat)
    requires Grown(m0, sp0, n0, m, sp, n, lo, hi) && UserOk(m0, po, k, lo, hi) && Owned(po, k) !! Owned(sp0, n0)
    ensures UserOk(m, po, k, lo, hi) && Owned(po, k) !! Owned(sp, n)
    ensures forall q :: q in Owned(po, k) && q in m0.ram ==> q in m.ram && m.ram[q] == m0.ram[q]
  {
    assert FreeOk(m, lo, hi) by { hide FreeOk, Rep, Apart, Cut; }
    hide UserOk, Owned, Cut, Frame;
    Bystander(m0, po, k, Owned(sp0, n0), m, Owned(sp, n), lo, hi);
  }

  lemma ParentPage(m: Mem, po: Space, k: nat, v: nat, lo: nat, hi: nat)
    requires UserOk(m, po, k, lo, hi) && v < k
    ensures SpaceOk(m, po, lo, hi) && v in po.leaf && Vpn(v * PGSIZE) == v && v * PGSIZE < MAXVA && v < UMAX
  {
    hide SpaceOk, InRange, Apart, Pages;
  }

  // ----- creating and freeing whole spaces -----

  lemma EmptySpace(m: Mem, root: nat, m': Mem, sp: Space, lo: nat, hi: nat)
    requires FreeOk(m, lo, hi) && FreeOk(m', lo, hi) && root in Free(m) && lo <= root < hi
    requires Free(m') == Free(m) - {root} && Frame(m.ram, m'.ram, {root}) && root in m'.ram && m'.ram[root] == Filled(0)
    requires sp == Space(root, map[], map[], map[])
    ensures UserOk(m', sp, 0, lo, hi) && Moves(m, {}, m', Nodes(sp))
  {
    hide FreeOk, Free;
    assert sp.mids.Values == {} && sp.lows.Values == {};
    assert Rep(m'.ram, sp);
  }

  /** Mapping or unmapping the top two pages leaves user memory alone. */
  lemma TopEdited(m: Mem, sp: Space, n: nat, m': Mem, sp': Space, lo: nat, hi: nat)
    requires UserOk(m, sp, n, lo, hi) && SpaceOk(m', sp', lo, hi) && Moves(m, Nodes(sp), m', Nodes(sp'))
    requires forall v :: v < UMAX ==> (v in sp.leaf <==> v in sp'.leaf) && (v in sp.leaf ==> sp'.leaf[v] == sp.leaf[v])
    ensures UserOk(m', sp', n, lo, hi) && Moves(m, Owned(sp, n), m', Owned(sp', n))
  {
    hide SpaceOk, Nodes, Pages, Moves, Apart;
    PagesAgree(sp.leaf, sp'.leaf, 0, n);
    MovesMore(m, Nodes(sp), m', Nodes(sp'), Pages(sp.leaf, 0, n));
  }

  /** Nothing but user memory is mapped. */
  predicate OnlyUser(leaf: map<nat, nat>, n: nat) { forall v :: v in leaf ==> v < n }

  lemma AllCut(leaf: map<nat, nat>, n: nat)
    requires OnlyUser(leaf, n)
    ensures Cut(leaf, 0, n) == map[]
  {
  }

  lemma NoUser(sp: Space)
    ensures Owned(sp, 0) == Nodes(sp)
  {
    hide Nodes;
    NoPages(sp.leaf, 0, Pages(sp.leaf, 0, 0), Nodes(sp));
  }

  lemma NoMoves(m: Mem, lo: nat, hi: nat)
    requires FreeOk(m, lo, hi)
    ensures Moves(m, {}, m, {})
  {
  }

  lemma TopPage(v: nat)
    requires UMAX <= v <= UMAX + 1
    ensures Vpn(v * PGSIZE) == v == Vpn(v * PGSIZE + PGSIZE - 1) && v * PGSIZE + PGSIZE <= MAXVA
  {
  }

  lemma TopStart(m: Mem, sp: Space, lo: nat, hi: nat)
    requires UserOk(m, sp, 0, lo, hi)
    ensures SpaceOk(m, sp, lo, hi) && IsLeaf(10) && IsLeaf(6)
    ensures forall v {:trigger Vpn(v * PGSIZE)} :: UMAX <= v <= UMAX + 1 ==>
              Vpn(v * PGSIZE) == v == Vpn(v * PGSIZE + PGSIZE - 1) && v * PGSIZE + PGSIZE <= MAXVA
  {
    hide SpaceOk, Vpn;
    forall v {:trigger Vpn(v * PGSIZE)} | UMAX <= v <= UMAX + 1
      ensures Vpn(v * PGSIZE) == v == Vpn(v * PGSIZE + PGSIZE - 1) && v * PGSIZE + PGSIZE <= MAXVA
    {
      TopPage(v);
    }
  }

  lemma NothingLeft(m: Mem, sp: Space, lo: nat, hi: nat)
    requires UserOk(m, sp, 0, lo, hi) && sp.leaf == map[]
    ensures OnlyUser(sp.leaf, 0) && Npages(0) == 0 && Owned(sp, 0) == Nodes(sp)
  {
    NoUser(sp);
  }

  lemma NoneApart(m: Mem, a: set<nat>, lo: nat, hi: nat)
    ensures InRange({}, lo, hi) && Apart({}, a, m) && a + {} == a
  {
  }

  lemma TopCut(leaf: map<nat, nat>, leaf': map<nat, nat>, v: nat)
    requires leaf' == Cut(leaf, v, 1) && v >= UMAX
    ensures leaf' == leaf - {v}
    ensures forall u :: u < UMAX ==> (u in leaf <==> u in leaf') && (u in leaf ==> leaf'[u] == leaf[u])
  {
  }

  lemma EmptyList(m: Mem, lo: nat, hi: nat)
    requires m.free == [] && (FreeOk(m, lo, hi) || (0 < lo && m.head == 0 && forall p :: lo <= p < hi ==> p in m.ram))
    ensures FreeOk(m, lo, hi) && Free(m) == {}
  {
  }

  /** The pages of [lo, p). */
  function Span(lo: nat, p: nat): (s: set<nat>)
    requires lo <= p
  {
    if lo == p then {} else Span(lo, p - 1) + {p - 1}
  }

  lemma {:induction false} SpanNext(lo: nat, p: nat)
    requires lo <= p
    ensures Span(lo, lo) == {} && Span(lo, p + 1) == Span(lo, p) + {p} && p !in Span(lo, p)
  {
    InSpan(lo, p, p);
  }

  lemma {:induction false} InSpan(lo: nat, p: nat, q: nat)
    requires lo <= p
    ensures q in Span(lo, p) <==> lo <= q < p
  {
    if lo < p { InSpan(lo, p - 1, q); }
  }

  lemma NotFree(m: Mem, p: nat)
    requires p !in Free(m)
    ensures p !in m.free
  {
  }

  /** User memory, the trapframe and the trampoline are mapped, nothing else. */
  predicate TopMapped(leaf: map<nat, nat>, n: nat) {
    UMAX in leaf && UMAX + 1 in leaf && forall v :: v in leaf ==> v < n || v == UMAX || v == UMAX + 1
  }

  lemma TopOf(m: Mem, sp: Space, n: nat, lo: nat, hi: nat)
    requires UserOk(m, sp, n, lo, hi) && TopMapped(sp.leaf, n)
    ensures SpaceOk(m, sp, lo, hi) && UMAX in sp.leaf && UMAX + 1 in sp.leaf
    ensures forall v {:trigger Vpn(v * PGSIZE)} :: UMAX <= v <= UMAX + 1 ==>
              Vpn(v * PGSIZE) == v && v * PGSIZE + PGSIZE <= MAXVA && v * PGSIZE % PGSIZE == 0
  {
    hide SpaceOk;
  }

  lemma TopGone(leaf: map<nat, nat>, leaf': map<nat, nat>, n: nat)
    requires TopMapped(leaf, n) && leaf' == leaf - {UMAX + 1} - {UMAX}
    ensures OnlyUser(leaf', n)
  {
  }

  lemma GrownTop(m0: Mem, sp0: Space, n0: nat, m: Mem, sp: Space, n: nat, lo: nat, hi: nat)
    requires Grown(m0, sp0, n0, m, sp, n, lo, hi) && TopMapped(sp0.leaf, n0)
    ensures TopMapped(sp.leaf, n) && sp.leaf[UMAX] == sp0.leaf[UMAX]
  {
    hide SpaceOk, Moves, Frame, Apart, Pages, OwnPages;
    assert UMAX in Cut(sp.leaf, n0, n - n0);
    forall v | v in sp.leaf ensures v < n || v == UMAX || v == UMAX + 1 {
      if !(n0 <= v < n) { assert v in Cut(sp.leaf, n0, n - n0); }
    }
  }

  lemma CutTop(m: Mem, sp: Space, k: nat, n: nat, lo: nat, hi: nat)
    requires UserOk(m, sp, n, lo, hi) && k <= n && TopMapped(sp.leaf, n)
    ensures TopMapped(Cut(sp.leaf, k, n - k), k) && Cut(sp.leaf, k, n - k)[UMAX] == sp.leaf[UMAX]
  {
    hide SpaceOk, InRange, Apart, Pages, OwnPages;
  }

  /** What is left after shrinking shows as before. */
  lemma CutView(m: Mem, sp: Space, k: nat, n: nat, ram': Ram, v: nat, lo: nat, hi: nat)
    requires UserOk(m, sp, n, lo, hi) && v < k <= n
    requires Frame(m.ram, ram', Nodes(sp) + Pages(sp.leaf, k, n - k) + Free(m))
    ensures View(ram', Cut(sp.leaf, k, n - k), v) == View(m.ram, sp.leaf, v)
  {
    SplitPages(sp.leaf, k, n);
    assert Ppn(sp.leaf[v]) in Pages(sp.leaf, 0, k);
    hide SpaceOk, InRange, Pages, OwnPages, Nodes, Free, Ppn;
  }
}
