/** Sv39 page tables as kernel/vm.c lays them out in physical memory, and the
    flat map they stand for. Pages are named by page number. */
module PageTable {

  const PGSIZE: nat := 4096
  const MAXVA: nat := 0x40_0000_0000

  /** A physical page, as 512 64-bit words. */
  type Page = p: seq<nat> | |p| == 512 witness seq(512, _ => 0)

  type Ram = map<nat, Page>

  datatype Option<T> = None | Some(value: T)

  function Filled(w: nat): (p: Page) { seq(512, _ => w) }

  // ----- addresses and page-table entries (kernel/riscv.h) -----

  /** PX(level, va) */
  function Px(level: nat, va: nat): (i: nat) {
    if level == 0 then va / 0x1000 % 512
    else if level == 1 then va / 0x20_0000 % 512
    else va / 0x4000_0000 % 512
  }

  function Vpn(va: nat): (v: nat) { va / PGSIZE }

  function Up(k: nat): (u: nat) { k / 512 }

  function Ix(k: nat): (i: nat)
    ensures i < 512
  {
    k % 512
  }

  /** The three indices of an address are the base-512 digits of its page number. */
  lemma PxDigits(va: nat)
    requires va < MAXVA
    ensures Px(0, va) == Ix(Vpn(va)) && Px(1, va) == Ix(Up(Vpn(va))) && Px(2, va) == Up(Up(Vpn(va))) < 512
    ensures Vpn(va) < 0x400_0000
  {
  }

  lemma Digits(k: nat, i: nat)
    requires i < 512
    ensures Up(k * 512 + i) == k && Ix(k * 512 + i) == i
    ensures k == Up(k) * 512 + Ix(k)
  {
  }

  predicate Present(w: nat) { w % 2 == 1 }

  /** Some of R, W and X is set. */
  predicate IsLeaf(w: nat) { w / 2 % 8 != 0 }

  function Ppn(w: nat): (p: nat) { w / 1024 }

  function Flags(w: nat): (f: nat) { w % 1024 }

  /** PA2PTE(pa) | perm | PTE_V */
  function Pte(p: nat, perm: nat): (w: nat) { p * 1024 + (if perm % 2 == 1 then perm else perm + 1) }

  lemma PteFields(p: nat, perm: nat)
    requires perm < 1024
    ensures Ppn(Pte(p, perm)) == p && Flags(Pte(p, perm)) == Pte(0, perm)
    ensures Present(Pte(p, perm)) && (IsLeaf(Pte(p, perm)) <==> IsLeaf(perm))
  {
    var f := if perm % 2 == 1 then perm else perm + 1;
    FlagBits(p, f);
    FlagBits(0, f);
  }

  lemma FlagBits(p: nat, f: nat)
    requires f < 1024
    ensures (p * 1024 + f) / 1024 == p && (p * 1024 + f) % 1024 == f
    ensures (p * 1024 + f) % 2 == f % 2 && (p * 1024 + f) / 2 % 8 == f / 2 % 8
  {
    var h := f / 2;
    assert f == 2 * h + f % 2;
    assert (p * 1024 + f) / 2 == 8 * (p * 64) + h;
    Mod8(p * 64, h);
  }

  lemma Mod8(a: nat, h: nat)
    ensures (8 * a + h) % 8 == h % 8
  {
  }

  // ----- the hardware's view -----

  /** The translation of section 4.3.2 (with 4.4, Sv39) of the RISC-V Privileged
      Architecture specification: the leaf PTE for `va`, and its level. */
  function Translate(ram: Ram, table: nat, level: nat, va: nat): (r: Option<(nat, nat)>)
    decreases level
  {
    if table !in ram then None
    else
      var w := ram[table][Px(level, va)];
      if !Present(w) then None
      else if IsLeaf(w) then Some((level, w))
      else if level == 0 then None
      else Translate(ram, Ppn(w), level - 1, va)
  }

  /** What the hardware finds for an address: three levels down from the root. */
  function Lookup(ram: Ram, root: nat, va: nat): (r: Option<(nat, nat)>) { Translate(ram, root, 2, va) }

  // ----- the kernel's view -----

  /** An address space: its root table, its level-1 tables by index, its level-0
      tables by the upper 18 bits of the page number, and its leaves. */
  datatype Space = Space(root: nat, mids: map<nat, nat>, lows: map<nat, nat>, leaf: map<nat, nat>)

  function Nodes(sp: Space): (s: set<nat>) { {sp.root} + sp.mids.Values + sp.lows.Values }

  function Child(m: map<nat, nat>, i: nat): (w: nat) { if i in m then Pte(m[i], 0) else 0 }

  function Leaf(m: map<nat, nat>, v: nat): (w: nat) { if v in m then m[v] else 0 }

  predicate LeafWord(w: nat) { Present(w) && IsLeaf(w) }

  /** Keys nest, leaves are leaves, and no page is used twice as a table. */
  predicate Shape(sp: Space) {
    && (forall i :: i in sp.mids ==> i < 512 && sp.mids[i] != sp.root)
    && (forall k :: k in sp.lows ==> Up(k) in sp.mids && sp.lows[k] != sp.root)
    && (forall v :: v in sp.leaf ==> Up(v) in sp.lows && LeafWord(sp.leaf[v]))
    && (forall i, j :: i in sp.mids && j in sp.mids && sp.mids[i] == sp.mids[j] ==> i == j)
    && (forall k, l :: k in sp.lows && l in sp.lows && sp.lows[k] == sp.lows[l] ==> k == l)
    && (forall i, k :: i in sp.mids && k in sp.lows ==> sp.mids[i] != sp.lows[k])
  }

  predicate RootOk(ram: Ram, sp: Space) {
    sp.root in ram && forall i :: 0 <= i < 512 ==> ram[sp.root][i] == Child(sp.mids, i)
  }

  predicate MidOk(ram: Ram, sp: Space, i: nat)
    requires i in sp.mids
  {
    sp.mids[i] in ram && forall j :: 0 <= j < 512 ==> ram[sp.mids[i]][j] == Child(sp.lows, i * 512 + j)
  }

  predicate LowOk(ram: Ram, sp: Space, k: nat)
    requires k in sp.lows
  {
    sp.lows[k] in ram && forall j :: 0 <= j < 512 ==> ram[sp.lows[k]][j] == Leaf(sp.leaf, k * 512 + j)
  }

  /** Physical memory holds exactly the tree of `sp`. */
  predicate Rep(ram: Ram, sp: Space) {
    && Shape(sp) && RootOk(ram, sp)
    && (forall i :: i in sp.mids ==> MidOk(ram, sp, i))
    && (forall k :: k in sp.lows ==> LowOk(ram, sp, k))
  }

  lemma TranslateNode(ram: Ram, table: nat, level: nat, va: nat, m: map<nat, nat>, i: nat)
    requires table in ram && level > 0 && Px(level, va) < 512 && ram[table][Px(level, va)] == Child(m, i)
    ensures Translate(ram, table, level, va) == if i in m then Translate(ram, m[i], level - 1, va) else None
  {
    hide Pte, Ppn, Px, Present, IsLeaf;
    if i in m { PteFields(m[i], 0); }
    NoLeafBits();
  }

  /** A word without flags is no leaf, and 0 is not even present. */
  lemma NoLeafBits()
    ensures !IsLeaf(0) && !Present(0)
  {
  }

  lemma TranslateLeaf(ram: Ram, table: nat, va: nat, m: map<nat, nat>, v: nat)
    requires table in ram && Px(0, va) < 512 && ram[table][Px(0, va)] == Leaf(m, v)
    requires v in m ==> LeafWord(m[v])
    ensures Translate(ram, table, 0, va) == if v in m then Some((0, m[v])) else None
  {
    hide Px;
  }

  /** The tree is a flat map: the hardware finds exactly the leaves. */
  lemma Refines(ram: Ram, sp: Space, va: nat)
    requires Rep(ram, sp) && va < MAXVA
    ensures Lookup(ram, sp.root, va) ==
            if Vpn(va) in sp.leaf then Some((0, sp.leaf[Vpn(va)])) else None
  {
    hide Pte, Ppn, Px, Up, Ix, Vpn, Translate, LeafWord;
    var v := Vpn(va);
    PxDigits(va);
    Digits(Up(v), 0);
    Digits(v, 0);
    var i := Px(2, va);
    assert ram[sp.root][i] == Child(sp.mids, i);
    TranslateNode(ram, sp.root, 2, va, sp.mids, i);
    if i in sp.mids {
      assert MidOk(ram, sp, i);
      assert ram[sp.mids[i]][Px(1, va)] == Child(sp.lows, Up(v));
      TranslateNode(ram, sp.mids[i], 1, va, sp.lows, Up(v));
      if Up(v) in sp.lows {
        assert LowOk(ram, sp, Up(v));
        assert ram[sp.lows[Up(v)]][Px(0, va)] == Leaf(sp.leaf, v);
        TranslateLeaf(ram, sp.lows[Up(v)], va, sp.leaf, v);
      }
    }
  }

  // ----- growing and editing the tree -----

  lemma AddMid(ram: Ram, sp: Space, i: nat, p: nat, ram': Ram, sp': Space)
    requires Rep(ram, sp) && i < 512 && i !in sp.mids && p in ram && p !in Nodes(sp)
    requires ram' == ram[p := Filled(0)][sp.root := ram[sp.root][i := Pte(p, 0)]]
    requires sp' == sp.(mids := sp.mids[i := p])
    ensures Rep(ram', sp')
  {
    hide Pte, Up, LeafWord, MidOk, LowOk, Shape, RootOk;
    AddMidShape(sp, i, p, sp');
    AddMidRoot(ram, sp, i, p, ram', sp');
    forall j | j in sp'.mids ensures MidOk(ram', sp', j) { AddMidMid(ram, sp, i, p, ram', sp', j); }
    forall k | k in sp'.lows ensures LowOk(ram', sp', k) { AddMidLow(ram, sp, i, p, ram', sp', k); }
  }

  lemma NotNode(sp: Space, p: nat)
    requires p !in Nodes(sp)
    ensures p != sp.root && (forall i :: i in sp.mids ==> sp.mids[i] != p) && (forall k :: k in sp.lows ==> sp.lows[k] != p)
  {
    assert forall i :: i in sp.mids ==> sp.mids[i] in sp.mids.Values;
    assert forall k :: k in sp.lows ==> sp.lows[k] in sp.lows.Values;
  }

  lemma AddMidShape(sp: Space, i: nat, p: nat, sp': Space)
    requires Shape(sp) && i < 512 && p !in Nodes(sp) && i !in sp.mids && sp' == sp.(mids := sp.mids[i := p])
    ensures Shape(sp')
  {
    hide Up, LeafWord, Nodes;
    NotNode(sp, p);
  }

  lemma AddMidRoot(ram: Ram, sp: Space, i: nat, p: nat, ram': Ram, sp': Space)
    requires RootOk(ram, sp) && i < 512 && p !in Nodes(sp)
    requires ram' == ram[p := Filled(0)][sp.root := ram[sp.root][i := Pte(p, 0)]]
    requires sp' == sp.(mids := sp.mids[i := p])
    ensures RootOk(ram', sp')
  {
    hide Pte;
  }

  lemma AddMidMid(ram: Ram, sp: Space, i: nat, p: nat, ram': Ram, sp': Space, j: nat)
    requires Rep(ram, sp) && i < 512 && i !in sp.mids && p in ram && p !in Nodes(sp)
    requires ram' == ram[p := Filled(0)][sp.root := ram[sp.root][i := Pte(p, 0)]]
    requires sp' == sp.(mids := sp.mids[i := p]) && j in sp'.mids
    ensures MidOk(ram', sp', j)
  {
    hide Pte, Up, LeafWord;
    if j == i {
      forall l | 0 <= l < 512 ensures ram'[p][l] == Child(sp'.lows, i * 512 + l) { Digits(i, l); }
    } else { assert MidOk(ram, sp, j) && sp.mids[j] in Nodes(sp); }
  }

  lemma AddMidLow(ram: Ram, sp: Space, i: nat, p: nat, ram': Ram, sp': Space, k: nat)
    requires Rep(ram, sp) && i < 512 && i !in sp.mids && p in ram && p !in Nodes(sp)
    requires ram' == ram[p := Filled(0)][sp.root := ram[sp.root][i := Pte(p, 0)]]
    requires sp' == sp.(mids := sp.mids[i := p]) && k in sp.lows
    ensures LowOk(ram', sp', k)
  {
    hide Pte, Up, LeafWord;
    assert LowOk(ram, sp, k) && sp.lows[k] in Nodes(sp);
  }

  lemma AddLow(ram: Ram, sp: Space, k: nat, p: nat, ram': Ram, sp': Space)
    requires Rep(ram, sp) && Up(k) in sp.mids && k !in sp.lows && p in ram && p !in Nodes(sp)
    requires ram' == ram[p := Filled(0)][sp.mids[Up(k)] := ram[sp.mids[Up(k)]][Ix(k) := Pte(p, 0)]]
    requires sp' == sp.(lows := sp.lows[k := p])
    ensures Rep(ram', sp')
  {
    hide Pte, Up, Ix, LeafWord, MidOk, LowOk, RootOk;
    assert Shape(sp');
    assert RootOk(ram', sp') by { AddLowRoot(ram, sp, k, p, ram', sp'); }
    forall i | i in sp'.mids ensures MidOk(ram', sp', i) { AddLowMid(ram, sp, k, p, ram', sp', i); }
    forall l | l in sp'.lows ensures LowOk(ram', sp', l) { AddLowLow(ram, sp, k, p, ram', sp', l); }
  }

  lemma AddLowRoot(ram: Ram, sp: Space, k: nat, p: nat, ram': Ram, sp': Space)
    requires Rep(ram, sp) && Up(k) in sp.mids && p in ram && p !in Nodes(sp)
    requires ram' == ram[p := Filled(0)][sp.mids[Up(k)] := ram[sp.mids[Up(k)]][Ix(k) := Pte(p, 0)]]
    requires sp' == sp.(lows := sp.lows[k := p])
    ensures RootOk(ram', sp')
  {
    hide Pte, Up, Ix;
  }

  lemma AddLowMid(ram: Ram, sp: Space, k: nat, p: nat, ram': Ram, sp': Space, i: nat)
    requires Rep(ram, sp) && Up(k) in sp.mids && k !in sp.lows && p in ram && p !in Nodes(sp)
    requires ram' == ram[p := Filled(0)][sp.mids[Up(k)] := ram[sp.mids[Up(k)]][Ix(k) := Pte(p, 0)]]
    requires sp' == sp.(lows := sp.lows[k := p]) && i in sp.mids
    ensures MidOk(ram', sp', i)
  {
    Digits(k, 0);
    assert MidOk(ram, sp, i) && sp.mids[i] in Nodes(sp);
    hide Rep, Nodes, Pte, Up, Ix;
    forall l | 0 <= l < 512 ensures ram'[sp'.mids[i]][l] == Child(sp'.lows, i * 512 + l) { Digits(i, l); }
  }

  lemma AddLowLow(ram: Ram, sp: Space, k: nat, p: nat, ram': Ram, sp': Space, l: nat)
    requires Rep(ram, sp) && Up(k) in sp.mids && k !in sp.lows && p in ram && p !in Nodes(sp)
    requires ram' == ram[p := Filled(0)][sp.mids[Up(k)] := ram[sp.mids[Up(k)]][Ix(k) := Pte(p, 0)]]
    requires sp' == sp.(lows := sp.lows[k := p]) && l in sp'.lows
    ensures LowOk(ram', sp', l)
  {
    hide Pte, Up, Ix, LeafWord;
    if l == k {
      forall j | 0 <= j < 512 ensures ram'[p][j] == Leaf(sp'.leaf, k * 512 + j) { Digits(k, j); }
    } else { assert LowOk(ram, sp, l) && sp.lows[l] in Nodes(sp); }
  }

  /** Storing 0 removes a leaf, storing a leaf word sets it. */
  function PutLeaf(m: map<nat, nat>, v: nat, w: nat): (r: map<nat, nat>) {
    if w == 0 then m - {v} else m[v := w]
  }

  lemma LowAt(ram: Ram, sp: Space, k: nat, l: nat)
    requires Rep(ram, sp) && k in sp.lows && l in sp.lows
    ensures LowOk(ram, sp, k) && sp.lows[k] in ram && (k != l ==> sp.lows[k] != sp.lows[l])
  {
    hide MidOk, RootOk, Up, LeafWord;
  }

  /** The table of page v is neither the root nor a level-1 table. */
  lemma LowApart(ram: Ram, sp: Space, k: nat, i: nat)
    requires Rep(ram, sp) && k in sp.lows
    ensures sp.lows[k] != sp.root && RootOk(ram, sp) && Shape(sp)
    ensures i in sp.mids ==> sp.mids[i] != sp.lows[k] && MidOk(ram, sp, i)
  {
    hide MidOk, RootOk, LowOk, Up, LeafWord;
  }

  lemma SetLeafShape(sp: Space, v: nat, w: nat, sp': Space)
    requires Shape(sp) && Up(v) in sp.lows && (w == 0 || LeafWord(w)) && sp' == sp.(leaf := PutLeaf(sp.leaf, v, w))
    ensures Shape(sp')
  {
    hide Up, LeafWord;
  }

  lemma SetLeaf(ram: Ram, sp: Space, v: nat, w: nat, ram': Ram, sp': Space)
    requires Rep(ram, sp) && Up(v) in sp.lows && (w == 0 || LeafWord(w))
    requires ram' == ram[sp.lows[Up(v)] := ram[sp.lows[Up(v)]][Ix(v) := w]]
    requires sp' == sp.(leaf := PutLeaf(sp.leaf, v, w))
    ensures Rep(ram', sp')
  {
    hide Up, Ix, LeafWord, LowOk, PutLeaf;
    LowAt(ram, sp, Up(v), Up(v));
    LowApart(ram, sp, Up(v), 0);
    SetLeafShape(sp, v, w, sp');
    hide Shape;
    assert RootOk(ram', sp');
    forall i | i in sp'.mids ensures MidOk(ram', sp', i) { LowApart(ram, sp, Up(v), i); }
    forall k | k in sp'.lows ensures LowOk(ram', sp', k) { SetLeafLow(ram, sp, v, w, ram', sp', k); }
  }

  lemma SetLeafLow(ram: Ram, sp: Space, v: nat, w: nat, ram': Ram, sp': Space, k: nat)
    requires Rep(ram, sp) && Up(v) in sp.lows && k in sp.lows
    requires sp.lows[Up(v)] in ram && ram' == ram[sp.lows[Up(v)] := ram[sp.lows[Up(v)]][Ix(v) := w]]
    requires sp' == sp.(leaf := PutLeaf(sp.leaf, v, w))
    ensures LowOk(ram', sp', k)
  {
    hide Rep, Up, Ix;
    LowAt(ram, sp, k, Up(v));
    LowAt(ram, sp, Up(v), k);
    Digits(v, 0);
    forall j | 0 <= j < 512 ensures ram'[sp'.lows[k]][j] == Leaf(sp'.leaf, k * 512 + j) { Digits(k, j); }
  }

  /** Only the tree's own pages matter. */
  lemma RepFrame(ram: Ram, sp: Space, ram': Ram)
    requires Rep(ram, sp) && forall q :: q in Nodes(sp) ==> q in ram' && (q in ram ==> ram'[q] == ram[q])
    ensures Rep(ram', sp)
  {
    hide Up, LeafWord;
    assert sp.root in Nodes(sp);
    forall i | i in sp.mids ensures MidOk(ram', sp, i) { assert MidOk(ram, sp, i) && sp.mids[i] in Nodes(sp); }
    forall k | k in sp.lows ensures LowOk(ram', sp, k) { assert LowOk(ram, sp, k) && sp.lows[k] in Nodes(sp); }
  }
}
