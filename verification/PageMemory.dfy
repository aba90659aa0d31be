/** The page allocator of kernel/kalloc.c and who owns which page. */
module PageMemory {
  import opened PageTable

  /** Physical memory, the head of the free list, and the list itself. */
  datatype Mem = Mem(ram: Ram, head: nat, free: seq<nat>)

  function Free(m: Mem): (s: set<nat>) { set p | p in m.free }

  /** The address a list node stores, or 0 at the end. */
  function Link(free: seq<nat>, i: nat): (pa: nat) { if i < |free| then free[i] * PGSIZE else 0 }

  /** The list threads distinct pages of [lo, hi) through their first words. */
  predicate FreeOk(m: Mem, lo: nat, hi: nat) {
    && 0 < lo && m.head == Link(m.free, 0)
    && (forall p :: lo <= p < hi ==> p in m.ram)
    && (forall i :: 0 <= i < |m.free| ==> lo <= m.free[i] < hi && m.ram[m.free[i]][0] == Link(m.free, i + 1))
    && (forall i, j :: 0 <= i < j < |m.free| ==> m.free[i] != m.free[j])
  }

  /** Pages outside `s` keep their contents. */
  predicate Frame(r0: Ram, r1: Ram, s: set<nat>) {
    r1.Keys == r0.Keys && forall q :: q in r0 && q !in s ==> r1[q] == r0[q]
  }

  /** Pages only move between an owner and the free list: none is lost, none is
      in both, and nobody else's page is written. */
  predicate Moves(m0: Mem, a0: set<nat>, m1: Mem, a1: set<nat>) {
    a1 + Free(m1) == a0 + Free(m0) && a1 !! Free(m1) && Frame(m0.ram, m1.ram, a0 + Free(m0))
  }

  /** A bystander's pages: neither the owner's nor free. */
  predicate Apart(u: set<nat>, a: set<nat>, m: Mem) { u !! a + Free(m) }

  /** A page freed twice is on its own list twice. */
  lemma Twice(m: Mem, p: nat, lo: nat, hi: nat)
    requires FreeOk(m, lo, hi) && p in m.free
    ensures forall m': Mem :: m'.free == [p] + m.free ==> !FreeOk(m', lo, hi)
  {
    var i :| 0 <= i < |m.free| && m.free[i] == p;
    forall m': Mem | m'.free == [p] + m.free ensures !FreeOk(m', lo, hi) {
      assert m'.free[0] == p == m'.free[i + 1];
    }
  }

  lemma MovesTrans(m0: Mem, a0: set<nat>, m1: Mem, a1: set<nat>, m2: Mem, a2: set<nat>)
    requires Moves(m0, a0, m1, a1) && Moves(m1, a1, m2, a2)
    ensures Moves(m0, a0, m2, a2)
  {
    hide Free;
  }

  /** A bystander's pages can join both sides. */
  lemma MovesMore(m0: Mem, a0: set<nat>, m1: Mem, a1: set<nat>, u: set<nat>)
    requires Moves(m0, a0, m1, a1) && Apart(u, a0, m0)
    ensures Moves(m0, a0 + u, m1, a1 + u) && Apart(u, a1, m1)
  {
    hide Free;
  }

  lemma FrameTrans(r0: Ram, r1: Ram, r2: Ram, s: set<nat>, t: set<nat>, u: set<nat>)
    requires Frame(r0, r1, s) && Frame(r1, r2, t) && s <= u && t <= u
    ensures Frame(r0, r2, u)
  {
  }

  lemma FreeKept(m: Mem, ram': Ram, lo: nat, hi: nat)
    requires FreeOk(m, lo, hi) && ram'.Keys == m.ram.Keys
    requires forall q :: q in m.free ==> q in m.ram && ram'[q] == m.ram[q]
    ensures FreeOk(m.(ram := ram'), lo, hi)
  {
  }

  lemma TakeIn(s: seq<nat>, q: nat)
    requires s != [] && forall i, j :: 0 <= i < j < |s| ==> s[i] != s[j]
    ensures q in s[1..] <==> q in s && q != s[0]
  {
    assert s == [s[0]] + s[1..];
  }

  lemma TakeLinks(m: Mem, p: nat, w: nat, m': Mem, lo: nat, hi: nat, i: nat)
    requires FreeOk(m, lo, hi) && m.free != [] && p == m.free[0]
    requires m' == Mem(m.ram[p := Filled(w)], m.ram[p][0], m.free[1..]) && i < |m'.free|
    ensures lo <= m'.free[i] < hi && m'.ram[m'.free[i]][0] == Link(m'.free, i + 1)
  {
    assert m'.free[i] == m.free[i + 1];
    assert m.free[0] != m.free[i + 1];
  }

  lemma Take(m: Mem, p: nat, w: nat, m': Mem, lo: nat, hi: nat)
    requires FreeOk(m, lo, hi) && m.free != [] && p == m.free[0]
    requires m' == Mem(m.ram[p := Filled(w)], m.ram[p][0], m.free[1..])
    ensures FreeOk(m', lo, hi) && lo <= p < hi && m.head == p * PGSIZE
    ensures Free(m') == Free(m) - {p} && p in Free(m) && m'.ram.Keys == m.ram.Keys
  {
    assert m.ram[m.free[0]][0] == Link(m.free, 1);
    hide Filled;
    forall q ensures q in m'.free <==> q in m.free && q != p { TakeIn(m.free, q); }
    forall i | 0 <= i < |m'.free| ensures lo <= m'.free[i] < hi && m'.ram[m'.free[i]][0] == Link(m'.free, i + 1) {
      TakeLinks(m, p, w, m', lo, hi, i);
    }
  }

  lemma Give(m: Mem, p: nat, w: nat, m': Mem, lo: nat, hi: nat)
    requires FreeOk(m, lo, hi) && lo <= p < hi && p !in m.free
    requires m' == Mem(m.ram[p := Filled(w)[0 := m.head]], p * PGSIZE, [p] + m.free)
    ensures FreeOk(m', lo, hi) && Free(m') == Free(m) + {p} && m'.ram.Keys == m.ram.Keys
  {
    forall i | 0 <= i < |m'.free| ensures lo <= m'.free[i] < hi && m'.ram[m'.free[i]][0] == Link(m'.free, i + 1) {
      if i > 0 { assert m'.free[i] == m.free[i - 1]; }
    }
    forall i, j | 0 <= i < j < |m'.free| ensures m'.free[i] != m'.free[j] {
      assert m'.free[j] == m.free[j - 1];
      if i > 0 { assert m'.free[i] == m.free[i - 1]; }
    }
  }

  // ----- one address space against the allocator -----

  predicate InRange(s: set<nat>, lo: nat, hi: nat) { forall q :: q in s ==> lo <= q < hi }

  predicate SpaceOk(m: Mem, sp: Space, lo: nat, hi: nat) {
    FreeOk(m, lo, hi) && Rep(m.ram, sp) && Nodes(sp) !! Free(m) && InRange(Nodes(sp), lo, hi)
  }

  /** The tables that a level-2 or level-1 table points to, and the key of the
      one on the path to page `v`. */
  function Kids(sp: Space, level: nat): (m: map<nat, nat>) { if level == 2 then sp.mids else sp.lows }

  function Key(level: nat, v: nat): (k: nat) { if level == 2 then Up(Up(v)) else Up(v) }

  function WithKid(sp: Space, level: nat, k: nat, p: nat): (sp': Space) {
    if level == 2 then sp.(mids := sp.mids[k := p]) else sp.(lows := sp.lows[k := p])
  }

  /** The level-`level` table on the path to `v` exists and is `table`. */
  predicate OnPath(sp: Space, level: nat, v: nat, table: nat) {
    if level == 2 then table == sp.root
    else Key(level + 1, v) in Kids(sp, level + 1) && Kids(sp, level + 1)[Key(level + 1, v)] == table
  }

  lemma EntryAt(ram: Ram, sp: Space, level: nat, va: nat, table: nat)
    requires Rep(ram, sp) && 1 <= level <= 2 && va < MAXVA && OnPath(sp, level, Vpn(va), table)
    ensures table in ram && table in Nodes(sp) && Px(level, va) < 512
    ensures ram[table][Px(level, va)] == Child(Kids(sp, level), Key(level, Vpn(va)))
    ensures Present(ram[table][Px(level, va)]) <==> Key(level, Vpn(va)) in Kids(sp, level)
    ensures Key(level, Vpn(va)) in Kids(sp, level) ==>
              OnPath(sp, level - 1, Vpn(va), Ppn(ram[table][Px(level, va)]))
  {
    hide Up, Ix, Px, Pte, Ppn, Vpn, LeafWord;
    var v := Vpn(va);
    PxDigits(va);
    Digits(Up(v), 0);
    if level == 1 {
      assert MidOk(ram, sp, Up(Up(v)));
      assert Up(Up(v)) * 512 + Px(1, va) == Up(v);
    }
    if Key(level, v) in Kids(sp, level) { PteFields(Kids(sp, level)[Key(level, v)], 0); }
  }

  lemma MovesNone(m: Mem, sp: Space, lo: nat, hi: nat)
    requires SpaceOk(m, sp, lo, hi)
    ensures Moves(m, Nodes(sp), m, Nodes(sp))
  {
  }

  /** No table above means no table below. */
  lemma NoPath(sp: Space, level: nat, v: nat)
    requires Shape(sp) && 1 <= level <= 2 && Key(level, v) !in Kids(sp, level)
    ensures Up(v) !in sp.lows
  {
    hide Up;
  }

  lemma PathPage(m: Mem, sp: Space, level: nat, v: nat, table: nat, lo: nat, hi: nat)
    requires SpaceOk(m, sp, lo, hi) && level <= 2 && OnPath(sp, level, v, table)
    ensures table in Nodes(sp) && table in m.ram && lo <= table < hi && table != 0
  {
    hide Up, MidOk, LowOk, RootOk, Shape;
  }

  /** walk's allocation step: a fresh table, zeroed and linked in. */
  lemma Extend(m: Mem, sp: Space, level: nat, va: nat, table: nat, p: nat, m': Mem, sp': Space, lo: nat, hi: nat)
    requires SpaceOk(m, sp, lo, hi) && 1 <= level <= 2 && va < MAXVA && OnPath(sp, level, Vpn(va), table)
    requires Key(level, Vpn(va)) !in Kids(sp, level) && m.free != [] && p == m.free[0]
    requires table in m.ram && Px(level, va) < 512 && p in m.ram
    requires m' == Mem(m.ram[p := Filled(0)][table := m.ram[table][Px(level, va) := Pte(p, 0)]], m.ram[p][0], m.free[1..])
    requires sp' == WithKid(sp, level, Key(level, Vpn(va)), p)
    ensures SpaceOk(m', sp', lo, hi) && Moves(m, Nodes(sp), m', Nodes(sp')) && OnPath(sp', level - 1, Vpn(va), p)
  {
    hide Up, Ix, Px, Pte, Vpn, Rep, FreeOk, Free, Nodes, Filled;
    var v := Vpn(va);
    PxDigits(va);
    var m1 := Mem(m.ram[p := Filled(0)], m.ram[p][0], m.free[1..]);
    Take(m, p, 0, m1, lo, hi);
    EntryAt(m.ram, sp, level, va, table);
    NewKid(sp, level, Key(level, v), p, sp');
    if level == 2 { AddMid(m.ram, sp, Up(Up(v)), p, m'.ram, sp'); }
    else { AddLow(m.ram, sp, Up(v), p, m'.ram, sp'); }
    TableStored(m1, table, m'.ram[table], m', lo, hi);
    assert Frame(m.ram, m'.ram, Nodes(sp) + Free(m));
  }

  /** Writing a page that is not free. */
  lemma TableStored(m: Mem, table: nat, page: Page, m': Mem, lo: nat, hi: nat)
    requires FreeOk(m, lo, hi) && table in m.ram && table !in Free(m) && m' == m.(ram := m.ram[table := page])
    ensures FreeOk(m', lo, hi) && Free(m') == Free(m)
  {
    FreeInRam(m, lo, hi);
    assert forall q :: q in m.free ==> q in Free(m);
    FreeKept(m, m'.ram, lo, hi);
  }

  lemma NewKid(sp: Space, level: nat, k: nat, p: nat, sp': Space)
    requires k !in Kids(sp, level) && 1 <= level <= 2 && sp' == WithKid(sp, level, k, p)
    ensures Nodes(sp') == Nodes(sp) + {p}
  {
    var a, b := Kids(sp, level), Kids(sp', level);
    forall q ensures q in b.Values <==> q in a.Values || q == p {
      if q in a.Values { var j :| j in a && a[j] == q; assert b[j] == q; }
      if q == p { assert b[k] == p; }
    }
  }

  // ----- leaves -----

  lemma LeafFlags(w: nat)
    requires LeafWord(w)
    ensures Flags(w) != 1
  {
    FlagBits(w / 1024, w % 1024);
  }

  lemma LoadLeaf(m: Mem, sp: Space, v: nat, table: nat, lo: nat, hi: nat)
    requires SpaceOk(m, sp, lo, hi) && OnPath(sp, 0, v, table)
    ensures table in m.ram && m.ram[table][Ix(v)] == Leaf(sp.leaf, v)
    ensures Present(m.ram[table][Ix(v)]) <==> v in sp.leaf
    ensures v in sp.leaf ==> LeafWord(sp.leaf[v]) && Flags(sp.leaf[v]) != 1
  {
    hide Up, Ix, FreeOk, RootOk, MidOk, Nodes, IsLeaf, Flags;
    assert LowOk(m.ram, sp, Up(v));
    Digits(v, 0);
    if v in sp.leaf { LeafFlags(sp.leaf[v]); }
  }

  /** Storing a leaf, or 0, in a level-0 table. */
  lemma StoreLeaf(m: Mem, sp: Space, v: nat, w: nat, table: nat, m': Mem, sp': Space, lo: nat, hi: nat)
    requires SpaceOk(m, sp, lo, hi) && OnPath(sp, 0, v, table) && (w == 0 || LeafWord(w)) && table in m.ram
    requires m' == m.(ram := m.ram[table := m.ram[table][Ix(v) := w]])
    requires sp' == sp.(leaf := PutLeaf(sp.leaf, v, w))
    ensures SpaceOk(m', sp', lo, hi) && Nodes(sp') == Nodes(sp) && Moves(m, Nodes(sp), m', Nodes(sp'))
  {
    hide Up, Ix, Rep, FreeOk, LeafWord, PutLeaf, Free;
    PathPage(m, sp, 0, v, table, lo, hi);
    SetLeaf(m.ram, sp, v, w, m'.ram, sp');
    TableStored(m, table, m'.ram[table], m', lo, hi);
  }

  lemma FreeInRam(m: Mem, lo: nat, hi: nat)
    requires FreeOk(m, lo, hi)
    ensures forall q :: q in m.free ==> q in m.ram && lo <= q < hi
  {
  }

  /** Leaves for the `n` pages from `v`, backed by consecutive pages from `p`. */
  function MapRange(m: map<nat, nat>, v: nat, n: nat, p: nat, perm: nat): (r: map<nat, nat>) {
    if n == 0 then m else MapRange(m, v, n - 1, p, perm)[v + n - 1 := Pte(p + n - 1, perm)]
  }

  function Cut(m: map<nat, nat>, v: nat, n: nat): (r: map<nat, nat>) {
    map u | u in m && !(v <= u < v + n) :: m[u]
  }

  lemma {:induction false} MapAt(m: map<nat, nat>, v: nat, n: nat, p: nat, perm: nat, u: nat)
    ensures u in MapRange(m, v, n, p, perm) <==> u in m || v <= u < v + n
    ensures v <= u < v + n ==> MapRange(m, v, n, p, perm)[u] == Pte(p + (u - v), perm)
    ensures u in m && !(v <= u < v + n) ==> MapRange(m, v, n, p, perm)[u] == m[u]
  {
    if n > 0 { MapAt(m, v, n - 1, p, perm, u); }
    hide Pte;
  }

  lemma CutNext(m: map<nat, nat>, v: nat, n: nat)
    ensures Cut(m, v, n + 1) == Cut(m, v, n) - {v + n}
    ensures Cut(m, v, 0) == m
  {
  }

  /** The pages the leaves of a range point to. */
  function Pages(m: map<nat, nat>, v: nat, n: nat): (s: set<nat>) {
    set u | v <= u < v + n && u in m :: Ppn(m[u])
  }

  /** Every page of the range is mapped, to a page of its own. */
  predicate OwnPages(m: map<nat, nat>, v: nat, n: nat) {
    && (forall u :: v <= u < v + n ==> u in m)
    && (forall u, w :: v <= u < w < v + n ==> u in m && w in m && Ppn(m[u]) != Ppn(m[w]))
  }

  lemma PagesNext(m: map<nat, nat>, v: nat, n: nat)
    requires n > 0 && OwnPages(m, v, n)
    ensures v in m && Pages(m, v, n) == Pages(m, v + 1, n - 1) + {Ppn(m[v])} && Ppn(m[v]) !in Pages(m, v + 1, n - 1)
    ensures OwnPages(m, v + 1, n - 1)
  {
    hide Ppn;
  }

  /** Freeing a page that is nobody's table. */
  lemma Freed(m: Mem, sp: Space, u: set<nat>, p: nat, m': Mem, lo: nat, hi: nat)
    requires SpaceOk(m, sp, lo, hi) && FreeOk(m', lo, hi) && p in m.ram && p !in Nodes(sp) && p !in Free(m) && p !in u
    requires Apart(u, Nodes(sp), m)
    requires Frame(m.ram, m'.ram, {p}) && Free(m') == Free(m) + {p}
    ensures SpaceOk(m', sp, lo, hi) && Apart(u, Nodes(sp), m') && Moves(m, Nodes(sp) + (u + {p}), m', Nodes(sp) + u)
  {
    hide Rep, FreeOk, Free;
    assert forall q :: q in Nodes(sp) ==> q in m.ram by { NodesInRam(m.ram, sp); }
    RepFrame(m.ram, sp, m'.ram);
  }

  lemma NodesInRam(ram: Ram, sp: Space)
    requires Rep(ram, sp)
    ensures forall q :: q in Nodes(sp) ==> q in ram
  {
    hide Up, LeafWord;
  }

  lemma UnmapStarts(m: Mem, sp: Space, pages: set<nat>, lo: nat, hi: nat)
    requires SpaceOk(m, sp, lo, hi) && Apart(pages, Nodes(sp), m)
    ensures Moves(m, Nodes(sp) + pages, m, Nodes(sp) + pages)
  {
    hide Rep, FreeOk, Free, Nodes;
  }

  lemma CutAt(m: map<nat, nat>, v: nat, n: nat, u: nat)
    requires u in m && !(v <= u < v + n)
    ensures u in Cut(m, v, n) && Cut(m, v, n)[u] == m[u]
  {
  }

  lemma LeafHasTable(m: Mem, sp: Space, v: nat, lo: nat, hi: nat)
    requires SpaceOk(m, sp, lo, hi) && v in sp.leaf
    ensures Up(v) in sp.lows
  {
    hide FreeOk, RootOk, MidOk, LowOk, Up;
  }

  lemma OnePage(m: Mem, sp: Space, left: set<nat>, rest: set<nat>, p: nat, lo: nat, hi: nat)
    requires SpaceOk(m, sp, lo, hi) && left == rest + {p} && InRange(left, lo, hi) && Apart(left, Nodes(sp), m)
    ensures FreeOk(m, lo, hi) && lo <= p < hi && p in m.ram && p !in m.free && p !in Nodes(sp) && p !in Free(m)
    ensures Apart(rest, Nodes(sp), m) && InRange(rest, lo, hi)
  {
    hide Rep, Nodes;
    assert p in left;
    assert forall q :: q in rest ==> q in left;
  }

  lemma NoPages(m: map<nat, nat>, v: nat, left: set<nat>, nodes: set<nat>)
    requires left == Pages(m, v, 0) || left == {}
    ensures left == {} && nodes + left == nodes
  {
  }

  lemma PageStep(va: nat, i: nat, n: nat, a: nat)
    requires va % PGSIZE == 0 && a == va + i * PGSIZE && i <= n
    ensures Vpn(a) == Vpn(va) + i && (a < va + n * PGSIZE <==> i < n)
    ensures a + PGSIZE == va + (i + 1) * PGSIZE
  {
  }

  lemma SpaceRep(m: Mem, sp: Space, lo: nat, hi: nat)
    requires SpaceOk(m, sp, lo, hi)
    ensures Rep(m.ram, sp)
  {
    hide Rep, FreeOk;
  }

  // ----- what the edits mean to the hardware -----

  /** mappages adds exactly its range. */
  lemma MapTranslates(ram: Ram, sp: Space, ram': Ram, sp': Space, v: nat, n: nat, p: nat, perm: nat, va: nat)
    requires Rep(ram, sp) && Rep(ram', sp') && sp'.leaf == MapRange(sp.leaf, v, n, p, perm) && va < MAXVA
    ensures Lookup(ram', sp'.root, va) ==
            if v <= Vpn(va) < v + n then Some((0, Pte(p + (Vpn(va) - v), perm))) else Lookup(ram, sp.root, va)
  {
    hide Rep, Vpn, Pte, Lookup, MapRange;
    Refines(ram, sp, va);
    Refines(ram', sp', va);
    MapAt(sp.leaf, v, n, p, perm, Vpn(va));
  }

  /** uvmunmap removes exactly its range. */
  lemma CutTranslates(ram: Ram, sp: Space, ram': Ram, sp': Space, v: nat, n: nat, va: nat)
    requires Rep(ram, sp) && Rep(ram', sp') && sp'.leaf == Cut(sp.leaf, v, n) && va < MAXVA
    ensures Lookup(ram', sp'.root, va) ==
            if v <= Vpn(va) < v + n then None else Lookup(ram, sp.root, va)
  {
    hide Rep, Vpn, Lookup;
    Refines(ram, sp, va);
    Refines(ram', sp', va);
  }
}
