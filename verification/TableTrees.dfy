/** The subtrees of a page table, as freewalk of kernel/vm.c visits them. */
module TableTrees {
  import opened PageTable
  import opened PageMemory

  /** A table of the tree: the root at level 2, others by level and key. */
  predicate HasTable(sp: Space, level: nat, key: nat) {
    level == 2 || (level == 1 && key in sp.mids) || (level == 0 && key in sp.lows)
  }

  function TableAt(sp: Space, level: nat, key: nat): (p: nat)
    requires HasTable(sp, level, key)
  {
    if level == 2 then sp.root else if level == 1 then sp.mids[key] else sp.lows[key]
  }

  function ChildKey(level: nat, key: nat, i: nat): (k: nat) { if level == 2 then i else key * 512 + i }

  /** The tables under the first `i` entries of a table. */
  function Below(sp: Space, level: nat, key: nat, i: nat): (s: set<nat>) {
    if level == 2 then (set m | m in sp.mids && m < i :: sp.mids[m]) + (set k | k in sp.lows && Up(k) < i :: sp.lows[k])
    else if level == 1 then set k | k in sp.lows && Up(k) == key && Ix(k) < i :: sp.lows[k]
    else {}
  }

  function Sub(sp: Space, level: nat, key: nat): (s: set<nat>)
    requires HasTable(sp, level, key)
  {
    Below(sp, level, key, 512) + {TableAt(sp, level, key)}
  }

  predicate HasChild(sp: Space, level: nat, key: nat, i: nat) {
    0 < level && HasTable(sp, level - 1, ChildKey(level, key, i))
  }

  /** The whole tree is the root's subtree. */
  lemma SubRoot(sp: Space, key: nat)
    requires Shape(sp)
    ensures Sub(sp, 2, key) == Nodes(sp)
  {
    hide Up, Ix, LeafWord;
    forall q ensures q in Sub(sp, 2, key) <==> q in Nodes(sp) {
      if q in sp.mids.Values { var i :| i in sp.mids && sp.mids[i] == q; }
      if q in sp.lows.Values { var k :| k in sp.lows && sp.lows[k] == q; assert Up(k) in sp.mids; }
    }
  }

  lemma BelowNext(sp: Space, level: nat, key: nat, i: nat)
    requires Shape(sp) && HasTable(sp, level, key) && level <= 2 && i < 512
    ensures Below(sp, level, key, i + 1) == Below(sp, level, key, i) +
            if HasChild(sp, level, key, i) then Sub(sp, level - 1, ChildKey(level, key, i)) else {}
    ensures HasChild(sp, level, key, i) ==> Below(sp, level, key, i) !! Sub(sp, level - 1, ChildKey(level, key, i))
    ensures TableAt(sp, level, key) !in Below(sp, level, key, i + 1)
  {
    hide LeafWord;
    Digits(key, i);
  }

  /** In a tree without leaves, an entry is the child or 0. */
  lemma EntryWord(ram: Ram, sp: Space, level: nat, key: nat, i: nat)
    requires Rep(ram, sp) && sp.leaf == map[] && HasTable(sp, level, key) && level <= 2 && i < 512
    ensures TableAt(sp, level, key) in ram
    ensures ram[TableAt(sp, level, key)][i] ==
            if HasChild(sp, level, key, i) then Pte(TableAt(sp, level - 1, ChildKey(level, key, i)), 0) else 0
    ensures Present(ram[TableAt(sp, level, key)][i]) <==> HasChild(sp, level, key, i)
    ensures !IsLeaf(ram[TableAt(sp, level, key)][i])
    ensures HasChild(sp, level, key, i) ==>
              Ppn(ram[TableAt(sp, level, key)][i]) == TableAt(sp, level - 1, ChildKey(level, key, i))
  {
    hide Up, Ix, Pte, Ppn, LeafWord;
    if level == 1 { assert MidOk(ram, sp, key); }
    if level == 0 { assert LowOk(ram, sp, key); }
    if HasChild(sp, level, key, i) { PteFields(TableAt(sp, level - 1, ChildKey(level, key, i)), 0); }
  }

  /** A subtree as it was in `ram0`, none of it free. */
  predicate Intact(m: Mem, ram0: Ram, sp: Space, level: nat, key: nat, lo: nat, hi: nat)
    requires HasTable(sp, level, key)
  {
    && FreeOk(m, lo, hi) && Sub(sp, level, key) !! Free(m) && InRange(Sub(sp, level, key), lo, hi)
    && forall q :: q in Sub(sp, level, key) ==> q in ram0 && q in m.ram && m.ram[q] == ram0[q]
  }

  /** freewalk after `i` entries: what hung below them is free. */
  predicate Walked(m0: Mem, ram0: Ram, sp: Space, level: nat, key: nat, m: Mem, i: nat, lo: nat, hi: nat)
    requires HasTable(sp, level, key)
  {
    var table := TableAt(sp, level, key);
    && FreeOk(m, lo, hi) && Free(m) == Free(m0) + Below(sp, level, key, i)
    && Frame(m0.ram, m.ram, Below(sp, level, key, i) + {table})
    && table in ram0 && table in m.ram && forall j :: i <= j < 512 ==> m.ram[table][j] == ram0[table][j]
  }

  lemma {:induction false} BelowMonotone(sp: Space, level: nat, key: nat, i: nat, n: nat)
    requires i <= n
    ensures Below(sp, level, key, i) <= Below(sp, level, key, n)
  {
    hide Up, Ix;
  }

  lemma SubOf(sp: Space, level: nat, key: nat, i: nat, s: set<nat>)
    requires HasTable(sp, level, key) && i < 512 && s <= Below(sp, level, key, i + 1)
    ensures s <= Sub(sp, level, key)
  {
    hide Below;
    BelowMonotone(sp, level, key, i + 1, 512);
  }

  lemma ApartFrom(m0: Mem, m: Mem, all: set<nat>, done: set<nat>, s: set<nat>, t: nat)
    requires all !! Free(m0) && Free(m) == Free(m0) + done && s <= all && s !! done && t !in s
    requires Frame(m0.ram, m.ram, done + {t})
    ensures s !! Free(m) && forall q :: q in s && q in m0.ram ==> q in m.ram && m.ram[q] == m0.ram[q]
  {
    hide Free;
  }

  lemma WalkedChild(m0: Mem, ram0: Ram, sp: Space, level: nat, key: nat, m: Mem, i: nat, lo: nat, hi: nat)
    requires Rep(ram0, sp) && HasTable(sp, level, key) && level <= 2 && i < 512 && HasChild(sp, level, key, i)
    requires Intact(m0, ram0, sp, level, key, lo, hi) && Walked(m0, ram0, sp, level, key, m, i, lo, hi)
    ensures Intact(m, ram0, sp, level - 1, ChildKey(level, key, i), lo, hi)
    ensures TableAt(sp, level, key) !in Sub(sp, level - 1, ChildKey(level, key, i))
  {
    hide FreeOk, Free, Below, RootOk, MidOk, LowOk, Shape, Sub, HasTable, TableAt, ChildKey, Frame;
    var s := Sub(sp, level - 1, ChildKey(level, key, i));
    BelowNext(sp, level, key, i);
    SubOf(sp, level, key, i, s);
    ApartFrom(m0, m, Sub(sp, level, key), Below(sp, level, key, i), s, TableAt(sp, level, key));
  }

  lemma WalkedNext(m0: Mem, ram0: Ram, sp: Space, level: nat, key: nat, m: Mem, i: nat, m': Mem, lo: nat, hi: nat)
    requires Rep(ram0, sp) && HasTable(sp, level, key) && level <= 2 && i < 512
    requires Walked(m0, ram0, sp, level, key, m, i, lo, hi)
    requires FreeOk(m', lo, hi) && TableAt(sp, level, key) in m'.ram
    requires m'.ram[TableAt(sp, level, key)] == m.ram[TableAt(sp, level, key)]
    requires if HasChild(sp, level, key, i)
             then Free(m') == Free(m) + Sub(sp, level - 1, ChildKey(level, key, i)) &&
                  Frame(m.ram, m'.ram, Sub(sp, level - 1, ChildKey(level, key, i)))
             else m' == m
    ensures Walked(m0, ram0, sp, level, key, m', i + 1, lo, hi)
  {
    hide FreeOk, Free, Below, RootOk, MidOk, LowOk, Shape, Sub, Frame, HasTable, TableAt, ChildKey;
    BelowNext(sp, level, key, i);
    var b, c, t := Below(sp, level, key, i), Below(sp, level, key, i + 1), {TableAt(sp, level, key)};
    if HasChild(sp, level, key, i) {
      FrameTrans(m0.ram, m.ram, m'.ram, b + t, Sub(sp, level - 1, ChildKey(level, key, i)), c + t);
    } else {
      assert c == b;
    }
  }

  lemma TableNotFree(m0: Mem, ram0: Ram, sp: Space, level: nat, key: nat, m: Mem, i: nat, lo: nat, hi: nat)
    requires Rep(ram0, sp) && HasTable(sp, level, key) && level <= 2 && 0 < i <= 512
    requires Intact(m0, ram0, sp, level, key, lo, hi) && Walked(m0, ram0, sp, level, key, m, i, lo, hi)
    ensures TableAt(sp, level, key) !in Free(m) && lo <= TableAt(sp, level, key) < hi
  {
    BelowNext(sp, level, key, i - 1);
    assert TableAt(sp, level, key) in Sub(sp, level, key);
    hide FreeOk, Free, Below, Rep, Frame;
  }

  lemma WalkedZeroed(m0: Mem, ram0: Ram, sp: Space, level: nat, key: nat, m: Mem, i: nat, ram': Ram, lo: nat, hi: nat)
    requires HasTable(sp, level, key) && 0 < i <= 512 && Walked(m0, ram0, sp, level, key, m, i, lo, hi)
    requires TableAt(sp, level, key) !in Free(m)
    requires ram' == m.ram[TableAt(sp, level, key) := m.ram[TableAt(sp, level, key)][i - 1 := 0]]
    ensures Walked(m0, ram0, sp, level, key, m.(ram := ram'), i, lo, hi)
  {
    FreeInRam(m, lo, hi);
    assert forall q :: q in m.free ==> q in Free(m);
    FreeKept(m, ram', lo, hi);
    hide FreeOk, Below;
    assert Free(m.(ram := ram')) == Free(m);
  }

  lemma WalkedStart(m: Mem, ram0: Ram, sp: Space, level: nat, key: nat, lo: nat, hi: nat)
    requires HasTable(sp, level, key) && Intact(m, ram0, sp, level, key, lo, hi)
    ensures Walked(m, ram0, sp, level, key, m, 0, lo, hi)
  {
    assert TableAt(sp, level, key) in Sub(sp, level, key);
    hide FreeOk, Up, Ix;
  }

  lemma WalkedEntry(m0: Mem, ram0: Ram, sp: Space, level: nat, key: nat, m: Mem, i: nat, lo: nat, hi: nat)
    requires HasTable(sp, level, key) && i < 512 && Walked(m0, ram0, sp, level, key, m, i, lo, hi)
    ensures FreeOk(m, lo, hi) && TableAt(sp, level, key) in m.ram && TableAt(sp, level, key) in ram0
    ensures m.ram[TableAt(sp, level, key)][i] == ram0[TableAt(sp, level, key)][i]
  {
  }

  lemma SubApart(m: Mem, ram': Ram, table: nat, s: set<nat>)
    requires Frame(m.ram, ram', s) && table in m.ram && table !in s
    ensures table in ram' && ram'[table] == m.ram[table]
  {
  }

  lemma WalkedFacts(m0: Mem, ram0: Ram, sp: Space, level: nat, key: nat, m: Mem, lo: nat, hi: nat)
    requires HasTable(sp, level, key) && Walked(m0, ram0, sp, level, key, m, 512, lo, hi)
    ensures FreeOk(m, lo, hi) && Free(m) == Free(m0) + Below(sp, level, key, 512)
    ensures Frame(m0.ram, m.ram, Below(sp, level, key, 512) + {TableAt(sp, level, key)})
    ensures Sub(sp, level, key) == Below(sp, level, key, 512) + {TableAt(sp, level, key)}
    ensures TableAt(sp, level, key) in m.free <==> TableAt(sp, level, key) in Free(m)
  {
    hide FreeOk, Below, Frame;
  }

  lemma WholeTree(m: Mem, sp: Space, lo: nat, hi: nat)
    requires SpaceOk(m, sp, lo, hi)
    ensures HasTable(sp, 2, 0) && TableAt(sp, 2, 0) == sp.root
    ensures Intact(m, m.ram, sp, 2, 0, lo, hi) && Sub(sp, 2, 0) == Nodes(sp)
  {
    SubRoot(sp, 0);
    NodesInRam(m.ram, sp);
    hide FreeOk, RootOk, MidOk, LowOk, Nodes, Free, Sub;
  }

  lemma TreeFreed(m: Mem, sp: Space, m': Mem, lo: nat, hi: nat)
    requires SpaceOk(m, sp, lo, hi) && Free(m') == Free(m) + Nodes(sp) && Frame(m.ram, m'.ram, Nodes(sp))
    ensures Moves(m, Nodes(sp), m', {})
  {
    hide FreeOk, Rep, Nodes, Free;
  }
}
