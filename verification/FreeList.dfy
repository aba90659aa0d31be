/** The heap of user/umalloc.c (section 8.7 of The C Programming Language, second
    edition). Addresses count units of one header; a block is named by the address
    of its header. */
module FreeList {

  /** Header fields by address, with the free list in address order from `base`,
      the allocated blocks with their sizes, and the block that owns each unit
      got from sbrk. */
  datatype Heap = Heap(base: nat, ptr: map<nat, nat>, size: map<nat, nat>,
                       list: seq<nat>, live: map<nat, nat>, own: map<nat, nat>)

  function Next(i: nat, n: nat): (j: nat) { if i + 1 < n then i + 1 else 0 }

  /** The list is circular and in address order, and starts at `base`, an empty
      block below all others. */
  predicate Ring(h: Heap) {
    && |h.list| > 0 && h.list[0] == h.base && h.base in h.size && h.size[h.base] == 0
    && Sorted(h.list) && (forall i :: 0 <= i < |h.list| ==> LinkOk(h, i))
  }

  predicate Sorted(s: seq<nat>) { forall i, j :: 0 <= i < j < |s| ==> s[i] < s[j] }

  predicate LinkOk(h: Heap, i: nat)
    requires i < |h.list|
  {
    h.list[i] in h.size && h.list[i] in h.ptr && h.ptr[h.list[i]] == h.list[Next(i, |h.list|)]
  }

  predicate IsBlock(h: Heap, a: nat) { a in h.live || (a in h.list && a != h.base) }

  /** Allocated blocks have their headers and are not on the free list. */
  predicate LiveOk(h: Heap, a: nat) {
    a in h.live ==> h.base < a && a !in h.list && a in h.size && h.size[a] == h.live[a]
  }

  /** A block owns exactly its own units. */
  predicate Owns(h: Heap, a: nat) {
    IsBlock(h, a) ==>
      a in h.size && h.size[a] > 0 && forall u :: a <= u < a + h.size[a] ==> u in h.own && h.own[u] == a
  }

  predicate OwnedOk(h: Heap, u: nat) {
    u in h.own ==> IsBlock(h, h.own[u]) && h.own[u] in h.size && h.own[u] <= u < h.own[u] + h.size[h.own[u]]
  }

  /** Free blocks i and i + 1 do not touch. */
  predicate Apart(h: Heap, i: nat) {
    1 <= i && i + 1 < |h.list| && h.list[i] in h.size ==> h.list[i] + h.size[h.list[i]] != h.list[i + 1]
  }

  ghost predicate Blocks(h: Heap) {
    && Ring(h) && (forall a :: LiveOk(h, a)) && (forall a :: Owns(h, a)) && (forall u :: OwnedOk(h, u))
  }

  /** The invariant: circular, ordered, every unit in exactly one block, and
      fully coalesced. */
  ghost predicate Ok(h: Heap) { Blocks(h) && forall i :: Apart(h, i) }

  // ----- consequences -----

  /** Blocks are pairwise disjoint. */
  lemma Disjoint(h: Heap, a: nat, b: nat)
    requires Blocks(h) && IsBlock(h, a) && IsBlock(h, b) && a < b
    ensures Owns(h, a) && Owns(h, b) && a in h.size && a + h.size[a] <= b
  {
    assert Owns(h, a) && Owns(h, b);
    assert b in h.own && h.own[b] == b;
  }

  function FreeBlocks(h: Heap): (s: set<nat>) { set a | a in h.list && a != h.base }

  ghost function Total(size: map<nat, nat>, s: set<nat>): (n: nat)
    requires s <= size.Keys
    decreases |s|
  {
    if s == {} then 0 else var a :| a in s; size[a] + Total(size, s - {a})
  }

  function UnitsOf(h: Heap, s: set<nat>): (us: set<nat>) { set u | u in h.own && h.own[u] in s }

  lemma {:induction false} Interval(a: nat, n: nat, s: set<nat>)
    requires forall u :: u in s <==> a <= u < a + n
    ensures |s| == n
  {
    if n > 0 {
      Interval(a, n - 1, s - {a + n - 1});
    } else {
      assert s == {};
    }
  }

  lemma {:induction false} UnitsCounted(h: Heap, s: set<nat>)
    requires Blocks(h) && forall a :: a in s ==> IsBlock(h, a)
    ensures s <= h.size.Keys && |UnitsOf(h, s)| == Total(h.size, s)
    decreases |s|
  {
    hide Ring, LiveOk, IsBlock;
    forall a | a in s ensures a in h.size { assert Owns(h, a); }
    if s == {} {
      assert UnitsOf(h, s) == {};
    } else {
      var a :| a in s && Total(h.size, s) == h.size[a] + Total(h.size, s - {a});
      UnitsCounted(h, s - {a});
      var own := set u | u in h.own && h.own[u] == a;
      assert Owns(h, a);
      forall u ensures u in own <==> a <= u < a + h.size[a] { assert OwnedOk(h, u); }
      Interval(a, h.size[a], own);
      assert UnitsOf(h, s) == UnitsOf(h, s - {a}) + own;
    }
  }

  /** Units taken from sbrk are free or allocated, and counted once. */
  lemma Conserved(h: Heap)
    requires Blocks(h)
    ensures FreeBlocks(h) <= h.size.Keys && h.live.Keys <= h.size.Keys
    ensures |h.own.Keys| == Total(h.size, FreeBlocks(h)) + Total(h.size, h.live.Keys)
  {
    hide Ring;
    UnitsCounted(h, FreeBlocks(h));
    UnitsCounted(h, h.live.Keys);
    forall u | u in h.own ensures h.own[u] in FreeBlocks(h) || h.own[u] in h.live { assert OwnedOk(h, u); }
    forall a | a in h.live ensures a !in FreeBlocks(h) { assert LiveOk(h, a); }
    hide Blocks;
    assert h.own.Keys == UnitsOf(h, FreeBlocks(h)) + UnitsOf(h, h.live.Keys);
  }

  lemma At(h: Heap, i: nat)
    requires Ring(h) && i < |h.list|
    ensures LinkOk(h, i) && (i > 0 ==> h.base < h.list[i] && IsBlock(h, h.list[i]))
  {
  }

  // ----- list edits -----

  function Insert(s: seq<nat>, i: nat, b: nat): (r: seq<nat>)
    requires i < |s|
    ensures |r| == |s| + 1
  {
    s[..i + 1] + [b] + s[i + 1..]
  }

  function Delete(s: seq<nat>, j: nat): (r: seq<nat>)
    requires j < |s|
    ensures |r| == |s| - 1
  {
    s[..j] + s[j + 1..]
  }

  lemma InsertIn(s: seq<nat>, i: nat, b: nat, a: nat)
    requires i < |s|
    ensures a in Insert(s, i, b) <==> a in s || a == b
  {
    assert s == s[..i + 1] + s[i + 1..];
  }

  lemma DeleteIn(s: seq<nat>, j: nat, a: nat)
    requires j < |s| && Sorted(s)
    ensures a in Delete(s, j) <==> a in s && a != s[j]
  {
    assert s == s[..j] + [s[j]] + s[j + 1..];
  }

  // ----- putting an allocated block on the list -----

  function Inserted(h: Heap, i: nat, b: nat): (t: Heap)
    requires i < |h.list|
  {
    h.(ptr := h.ptr[b := h.list[Next(i, |h.list|)]][h.list[i] := b], list := Insert(h.list, i, b), live := h.live - {b})
  }

  lemma InsertAt(s: seq<nat>, i: nat, b: nat, k: nat)
    requires i < |s| && k <= |s|
    ensures Insert(s, i, b)[k] == if k <= i then s[k] else if k == i + 1 then b else s[k - 1]
  {
  }

  lemma InsertSorted(s: seq<nat>, i: nat, b: nat)
    requires Sorted(s) && i < |s| && s[i] < b && (i + 1 < |s| ==> b < s[i + 1])
    ensures Sorted(Insert(s, i, b))
  {
    hide Insert;
    forall j, k | 0 <= j < k < |s| + 1 ensures Insert(s, i, b)[j] < Insert(s, i, b)[k] {
      InsertAt(s, i, b, j);
      InsertAt(s, i, b, k);
    }
  }

  lemma InsertLink(h: Heap, i: nat, b: nat, t: Heap, k: nat)
    requires Ring(h) && i < |h.list| && b !in h.list && b in h.size && t == Inserted(h, i, b) && k < |t.list|
    ensures LinkOk(t, k)
  {
    hide Insert, Sorted;
    InsertAt(h.list, i, b, k);
    InsertAt(h.list, i, b, Next(k, |t.list|));
    var k0 := if k <= i then k else if k == i + 1 then i else k - 1;
    At(h, k0);
    if k0 != i { SortedApart(h.list, k0, i); }
  }

  lemma SortedApart(s: seq<nat>, i: nat, j: nat)
    requires Sorted(s) && i < |s| && j < |s| && i != j
    ensures s[i] != s[j]
  {
  }

  lemma Between(s: seq<nat>, i: nat, b: nat)
    requires Sorted(s) && i < |s| && s[i] < b && (i + 1 < |s| ==> b < s[i + 1])
    ensures b !in s
  {
  }

  lemma InsertRing(h: Heap, i: nat, b: nat, t: Heap)
    requires Ring(h) && i < |h.list| && h.list[i] < b && (i + 1 < |h.list| ==> b < h.list[i + 1]) && b in h.size
    requires t == Inserted(h, i, b)
    ensures Ring(t)
  {
    hide Insert, LinkOk, Sorted;
    Between(h.list, i, b);
    InsertSorted(h.list, i, b);
    InsertAt(h.list, i, b, 0);
    forall k | 0 <= k < |t.list| ensures LinkOk(t, k) { InsertLink(h, i, b, t, k); }
  }

  lemma InsertBlocks(h: Heap, i: nat, b: nat, t: Heap)
    requires Blocks(h) && i < |h.list| && h.list[i] < b && (i + 1 < |h.list| ==> b < h.list[i + 1]) && b in h.live
    requires t == Inserted(h, i, b)
    ensures Blocks(t)
  {
    hide Ring, Insert;
    assert LiveOk(h, b);
    InsertRing(h, i, b, t);
    forall a ensures LiveOk(t, a) { assert LiveOk(h, a); InsertIn(h.list, i, b, a); }
    forall a ensures Owns(t, a) { assert Owns(h, a); InsertIn(h.list, i, b, a); }
    forall u ensures OwnedOk(t, u) { assert OwnedOk(h, u); if u in h.own { InsertIn(h.list, i, b, h.own[u]); } }
  }

  // ----- joining two free blocks that touch -----

  /** Units of block `b` become units of block `a`. */
  function GiveUnits(own: map<nat, nat>, b: nat, a: nat): (r: map<nat, nat>) {
    map u | u in own :: if own[u] == b then a else own[u]
  }

  function Merged(h: Heap, j: nat): (t: Heap)
    requires j + 1 < |h.list| && h.list[j] in h.size && h.list[j + 1] in h.size && h.list[j + 1] in h.ptr
  {
    var a, b := h.list[j], h.list[j + 1];
    h.(size := h.size[a := h.size[a] + h.size[b]], ptr := h.ptr[a := h.ptr[b]], list := Delete(h.list, j + 1),
       own := GiveUnits(h.own, b, a))
  }

  lemma DeleteAt(s: seq<nat>, j: nat, k: nat)
    requires j < |s| && k < |s| - 1
    ensures Delete(s, j)[k] == if k < j then s[k] else s[k + 1]
  {
  }

  lemma DeleteSorted(s: seq<nat>, j: nat)
    requires Sorted(s) && j < |s|
    ensures Sorted(Delete(s, j))
  {
    hide Delete;
    forall i, k | 0 <= i < k < |s| - 1 ensures Delete(s, j)[i] < Delete(s, j)[k] {
      DeleteAt(s, j, i);
      DeleteAt(s, j, k);
    }
  }

  /** Unlinking list entry j + 1. */
  lemma DeleteLink(h: Heap, j: nat, t: Heap, k: nat)
    requires Ring(h) && j + 1 < |h.list| && h.list[j + 1] in h.ptr && t.list == Delete(h.list, j + 1) && k < |t.list|
    requires t.ptr == h.ptr[h.list[j] := h.ptr[h.list[j + 1]]]
    requires forall i :: 0 <= i < |h.list| ==> h.list[i] in t.size
    ensures LinkOk(t, k)
  {
    hide Delete, Sorted;
    DeleteAt(h.list, j + 1, k);
    DeleteAt(h.list, j + 1, Next(k, |t.list|));
    var k0 := if k <= j then k else k + 1;
    At(h, k0);
    At(h, j + 1);
    if k0 != j { SortedApart(h.list, k0, j); }
  }

  lemma DeleteRing(h: Heap, j: nat, t: Heap)
    requires Ring(h) && j + 1 < |h.list| && h.list[j + 1] in h.ptr && t.list == Delete(h.list, j + 1) && t.base == h.base
    requires t.ptr == h.ptr[h.list[j] := h.ptr[h.list[j + 1]]]
    requires (forall i :: 0 <= i < |h.list| ==> h.list[i] in t.size) && t.base in t.size && t.size[t.base] == 0
    ensures Ring(t)
  {
    hide Delete, LinkOk, Sorted;
    DeleteSorted(h.list, j + 1);
    DeleteAt(h.list, j + 1, 0);
    forall k | 0 <= k < |t.list| ensures LinkOk(t, k) { DeleteLink(h, j, t, k); }
  }

  lemma MergeBlocks(h: Heap, j: nat, t: Heap)
    requires Blocks(h) && 1 <= j && j + 1 < |h.list| && h.list[j] in h.size && h.list[j + 1] in h.size && h.list[j + 1] in h.ptr
    requires h.list[j] + h.size[h.list[j]] == h.list[j + 1] && t == Merged(h, j)
    ensures Blocks(t) && t.own.Keys == h.own.Keys
  {
    hide Ring, Delete, Owns, OwnedOk;
    var a, b := h.list[j], h.list[j + 1];
    MergeRing(h, j, t);
    forall c ensures LiveOk(t, c) { assert LiveOk(h, c); MergeIn(h, j, t, c); }
    forall c ensures Owns(t, c) { MergeOwns(h, j, t, c); }
    forall u ensures OwnedOk(t, u) { MergeOwned(h, j, t, u); }
  }

  lemma MergeRing(h: Heap, j: nat, t: Heap)
    requires Ring(h) && 1 <= j && j + 1 < |h.list| && h.list[j] in h.size && h.list[j + 1] in h.size && h.list[j + 1] in h.ptr
    requires t == Merged(h, j)
    ensures Ring(t) && h.base < h.list[j] < h.list[j + 1]
  {
    hide Delete, Next;
    forall i | 0 <= i < |h.list| ensures h.list[i] in t.size { At(h, i); }
    DeleteRing(h, j, t);
  }

  lemma MergeIn(h: Heap, j: nat, t: Heap, c: nat)
    requires Ring(h) && 1 <= j && j + 1 < |h.list| && h.list[j] in h.size && h.list[j + 1] in h.size && h.list[j + 1] in h.ptr
    requires t == Merged(h, j)
    ensures c in t.list <==> c in h.list && c != h.list[j + 1]
    ensures h.list[j] in t.list && h.list[j] != h.base
  {
    hide Delete, LinkOk;
    DeleteIn(h.list, j + 1, c);
    DeleteIn(h.list, j + 1, h.list[j]);
  }

  lemma MergeOwns(h: Heap, j: nat, t: Heap, c: nat)
    requires Blocks(h) && 1 <= j && j + 1 < |h.list| && h.list[j] in h.size && h.list[j + 1] in h.size && h.list[j + 1] in h.ptr
    requires h.list[j] + h.size[h.list[j]] == h.list[j + 1] && t == Merged(h, j)
    ensures Owns(t, c)
  {
    var a, b := h.list[j], h.list[j + 1];
    MergeIn(h, j, t, c);
    assert Owns(h, a) && Owns(h, b) && Owns(h, c) && LiveOk(h, b) && LiveOk(h, a);
    assert a < b;
    hide Blocks, LiveOk;
  }

  lemma MergeOwned(h: Heap, j: nat, t: Heap, u: nat)
    requires Blocks(h) && 1 <= j && j + 1 < |h.list| && h.list[j] in h.size && h.list[j + 1] in h.size && h.list[j + 1] in h.ptr
    requires h.list[j] + h.size[h.list[j]] == h.list[j + 1] && t == Merged(h, j)
    ensures OwnedOk(t, u)
  {
    if u in h.own {
      assert OwnedOk(h, u) && LiveOk(h, h.list[j + 1]);
      MergeIn(h, j, t, h.own[u]);
      assert h.list[j] < h.list[j + 1];
    }
    hide Blocks, LiveOk;
  }

  // ----- touching neighbours -----

  lemma InsertApart(h: Heap, i: nat, b: nat, t: Heap, k: nat)
    requires i < |h.list| && t == Inserted(h, i, b) && k != i && k != i + 1
    requires Apart(h, if k < i then k else k - 1)
    ensures Apart(t, k)
  {
    hide Insert;
    if k + 1 < |t.list| {
      InsertAt(h.list, i, b, k);
      InsertAt(h.list, i, b, k + 1);
    }
  }

  lemma MergeApart(h: Heap, j: nat, t: Heap, k: nat)
    requires Ring(h) && 1 <= j && j + 1 < |h.list| && h.list[j] in h.size && h.list[j + 1] in h.size && h.list[j + 1] in h.ptr
    requires h.list[j] + h.size[h.list[j]] == h.list[j + 1] && t == Merged(h, j)
    requires Apart(h, if k < j then k else k + 1)
    ensures Apart(t, k)
  {
    hide Delete, LinkOk, Next;
    if k + 1 < |t.list| {
      DeleteAt(h.list, j + 1, k);
      DeleteAt(h.list, j + 1, k + 1);
      SortedApart(h.list, if k <= j then k else k + 1, if k == j then j + 1 else j);
    }
  }

  // ----- free -----

  /** List entries j and j + 1 touch. */
  predicate Touch(h: Heap, j: nat) {
    && 1 <= j && j + 1 < |h.list| && h.list[j] in h.size && h.list[j + 1] in h.size && h.list[j + 1] in h.ptr
    && h.list[j] + h.size[h.list[j]] == h.list[j + 1]
  }

  function JoinNext(h: Heap, j: nat): (t: Heap) { if Touch(h, j) then Merged(h, j) else h }

  /** free(): block `b` goes back after list entry i, joined with whichever
      neighbours it touches. */
  function Freed(h: Heap, i: nat, b: nat): (t: Heap)
    requires i < |h.list|
  {
    JoinNext(JoinNext(Inserted(h, i, b), i + 1), i)
  }

  lemma JoinBlocks(h: Heap, j: nat, t: Heap)
    requires Blocks(h) && t == JoinNext(h, j)
    ensures Blocks(t) && t.own.Keys == h.own.Keys && t.live == h.live && t.base == h.base
  {
    hide Blocks, Delete;
    if Touch(h, j) { MergeBlocks(h, j, t); }
  }

  /** Entry j, joined with its neighbour if they touch, is apart from the next. */
  lemma JoinApart(h: Heap, j: nat, t: Heap, k: nat)
    requires Ring(h) && t == JoinNext(h, j)
    requires if Touch(h, j) then Apart(h, if k < j then k else k + 1) else k == j || Apart(h, k)
    ensures Apart(t, k)
  {
    if Touch(h, j) {
      MergeApart(h, j, t, k);
    } else if 1 <= j && j + 1 < |h.list| {
      At(h, j);
      At(h, j + 1);
    }
    hide Merged, LinkOk;
  }

  lemma FreedOk(h: Heap, i: nat, b: nat, t: Heap)
    requires Ok(h) && i < |h.list| && h.list[i] < b && (i + 1 < |h.list| ==> b < h.list[i + 1]) && b in h.live
    requires t == Freed(h, i, b)
    ensures Ok(t) && t.live == h.live - {b} && t.own.Keys == h.own.Keys && t.base == h.base
  {
    hide Ring, LiveOk, Owns, OwnedOk, Apart, Insert, Merged, JoinNext, Touch;
    var t1 := Inserted(h, i, b);
    var t2 := JoinNext(t1, i + 1);
    InsertBlocks(h, i, b, t1);
    JoinBlocks(t1, i + 1, t2);
    JoinBlocks(t2, i, t);
    forall k ensures k != i && k != i + 1 ==> Apart(t1, k) {
      if k != i && k != i + 1 { InsertApart(h, i, b, t1, k); }
    }
    forall k ensures k != i ==> Apart(t2, k) { if k != i { JoinApart(t1, i + 1, t2, k); } }
    forall k ensures Apart(t, k) { JoinApart(t2, i, t, k); }
  }

  // ----- malloc: an exact fit -----

  /** List entry j + 1 is handed out whole. */
  function Removed(h: Heap, j: nat): (t: Heap)
    requires j + 1 < |h.list| && h.list[j + 1] in h.size && h.list[j + 1] in h.ptr
  {
    var b := h.list[j + 1];
    h.(ptr := h.ptr[h.list[j] := h.ptr[b]], list := Delete(h.list, j + 1), live := h.live[b := h.size[b]])
  }

  lemma RemovedRing(h: Heap, j: nat, t: Heap)
    requires Ring(h) && j + 1 < |h.list| && h.list[j + 1] in h.size && h.list[j + 1] in h.ptr && t == Removed(h, j)
    ensures Ring(t) && h.base < h.list[j + 1]
  {
    hide Delete, Next;
    forall i | 0 <= i < |h.list| ensures h.list[i] in t.size { At(h, i); }
    DeleteRing(h, j, t);
  }

  lemma RemovedApart(h: Heap, j: nat, t: Heap, k: nat)
    requires Ok(h) && j + 1 < |h.list| && h.list[j + 1] in h.size && h.list[j + 1] in h.ptr && t == Removed(h, j)
    ensures Apart(t, k)
  {
    hide Delete, LinkOk, Next, LiveOk, Owns, OwnedOk;
    if 1 <= k && k + 1 < |t.list| {
      DeleteAt(h.list, j + 1, k);
      DeleteAt(h.list, j + 1, k + 1);
      assert Apart(h, if k < j then k else k + 1);
      if k == j {
        At(h, j);
        At(h, j + 1);
        Disjoint(h, h.list[j], h.list[j + 1]);
      }
    }
  }

  lemma RemovedOk(h: Heap, j: nat, t: Heap)
    requires Ok(h) && j + 1 < |h.list| && h.list[j + 1] in h.size && h.list[j + 1] in h.ptr && t == Removed(h, j)
    ensures Ok(t) && h.list[j + 1] !in h.live && t.own == h.own
  {
    hide Ring, Delete, Apart;
    var b := h.list[j + 1];
    RemovedRing(h, j, t);
    assert LiveOk(h, b) && Sorted(h.list) by { RingSorted(h); }
    forall a ensures LiveOk(t, a) { assert LiveOk(h, a); DeleteIn(h.list, j + 1, a); }
    forall a ensures Owns(t, a) { assert Owns(h, a); DeleteIn(h.list, j + 1, a); }
    forall u ensures OwnedOk(t, u) { assert OwnedOk(h, u); if u in h.own { DeleteIn(h.list, j + 1, h.own[u]); } }
    forall k ensures Apart(t, k) { RemovedApart(h, j, t, k); }
  }

  lemma RingSorted(h: Heap)
    requires Ring(h)
    ensures Sorted(h.list)
  {
  }

  // ----- malloc: the tail of a larger block -----

  /** Units from `a` on that block `p` owned become block a's. */
  function Split(own: map<nat, nat>, p: nat, a: nat): (r: map<nat, nat>) {
    map u | u in own :: if own[u] == p && u >= a then a else own[u]
  }

  /** The last `n` units of list entry j are handed out. */
  function TailTaken(h: Heap, j: nat, n: nat): (t: Heap)
    requires j < |h.list| && h.list[j] in h.size && n < h.size[h.list[j]]
  {
    var p := h.list[j];
    var rest := h.size[p] - n;
    var a := p + rest;
    h.(size := h.size[p := rest][a := n], live := h.live[a := n], own := Split(h.own, p, a))
  }

  /** The new block's address lies inside the old one, so it is no other block. */
  lemma TailFresh(h: Heap, j: nat, n: nat, a: nat)
    requires Blocks(h) && 1 <= j < |h.list| && h.list[j] in h.size && 0 < n < h.size[h.list[j]]
    requires a == h.list[j] + h.size[h.list[j]] - n
    ensures !IsBlock(h, a) && h.base < h.list[j] < a && a in h.own && h.own[a] == h.list[j]
  {
    hide LinkOk, Next;
    At(h, j);
    assert Owns(h, h.list[j]) && Owns(h, a);
    assert a in h.own && h.own[a] == h.list[j];
  }

  lemma TailRing(h: Heap, j: nat, n: nat, t: Heap)
    requires Blocks(h) && 1 <= j < |h.list| && h.list[j] in h.size && 0 < n < h.size[h.list[j]] && t == TailTaken(h, j, n)
    ensures Ring(t)
  {
    hide Next, Owns, LiveOk, OwnedOk;
    TailFresh(h, j, n, h.list[j] + h.size[h.list[j]] - n);
    forall i | 0 <= i < |t.list| ensures LinkOk(t, i) { At(h, i); }
  }

  lemma TailApart(h: Heap, j: nat, n: nat, t: Heap, k: nat)
    requires Ok(h) && 1 <= j < |h.list| && h.list[j] in h.size && 0 < n < h.size[h.list[j]] && t == TailTaken(h, j, n)
    ensures Apart(t, k)
  {
    hide LinkOk, Next, LiveOk, Owns, OwnedOk;
    if 1 <= k && k + 1 < |h.list| {
      assert Apart(h, k);
      At(h, k);
      At(h, k + 1);
      if k != j { SortedApart(h.list, k, j); }
      TailFresh(h, j, n, h.list[j] + h.size[h.list[j]] - n);
      Disjoint(h, h.list[k], h.list[k + 1]);
    }
  }

  lemma TailOwns(h: Heap, j: nat, n: nat, t: Heap, c: nat)
    requires Blocks(h) && 1 <= j < |h.list| && h.list[j] in h.size && 0 < n < h.size[h.list[j]] && t == TailTaken(h, j, n)
    ensures Owns(t, c) && LiveOk(t, c)
  {
    hide Ring;
    var p := h.list[j];
    TailFresh(h, j, n, p + h.size[p] - n);
    assert Owns(h, p) && Owns(h, c) && LiveOk(h, c) && LiveOk(h, p);
    assert IsBlock(h, p);
    hide Blocks;
  }

  lemma TailOwned(h: Heap, j: nat, n: nat, t: Heap, u: nat)
    requires Blocks(h) && 1 <= j < |h.list| && h.list[j] in h.size && 0 < n < h.size[h.list[j]] && t == TailTaken(h, j, n)
    ensures OwnedOk(t, u)
  {
    hide Ring;
    var p := h.list[j];
    TailFresh(h, j, n, p + h.size[p] - n);
    assert OwnedOk(h, u) && LiveOk(h, p);
    hide Blocks;
  }

  lemma TailOk(h: Heap, j: nat, n: nat, t: Heap)
    requires Ok(h) && 1 <= j < |h.list| && h.list[j] in h.size && 0 < n < h.size[h.list[j]] && t == TailTaken(h, j, n)
    ensures Ok(t) && h.list[j] + h.size[h.list[j]] - n !in h.live && t.own.Keys == h.own.Keys
  {
    hide Ring, Owns, OwnedOk, LiveOk, Apart;
    TailRing(h, j, n, t);
    TailFresh(h, j, n, h.list[j] + h.size[h.list[j]] - n);
    forall a ensures LiveOk(t, a) && Owns(t, a) { TailOwns(h, j, n, t, a); }
    forall u ensures OwnedOk(t, u) { TailOwned(h, j, n, t, u); }
    forall k ensures Apart(t, k) { TailApart(h, j, n, t, k); }
  }

  // ----- morecore -----

  function Fill(own: map<nat, nat>, g: nat, n: nat): (r: map<nat, nat>) {
    if n == 0 then own else Fill(own, g, n - 1)[g + n - 1 := g]
  }

  lemma {:induction false} FillAt(own: map<nat, nat>, g: nat, n: nat, u: nat)
    ensures u in Fill(own, g, n) <==> u in own || g <= u < g + n
    ensures g <= u < g + n ==> Fill(own, g, n)[u] == g
    ensures u in own && !(g <= u < g + n) ==> Fill(own, g, n)[u] == own[u]
  {
    if n > 0 { FillAt(own, g, n - 1, u); }
  }

  /** A region of `n` units at `g`, above everything so far, as an allocated block. */
  function Grown(h: Heap, g: nat, n: nat): (t: Heap) {
    h.(size := h.size[g := n], live := h.live[g := n], own := Fill(h.own, g, n))
  }

  predicate Above(h: Heap, g: nat) { h.base < g && forall u :: u in h.own ==> u < g }

  lemma AboveBlocks(h: Heap, g: nat, a: nat)
    requires Blocks(h) && Above(h, g)
    ensures IsBlock(h, a) ==> a < g
    ensures g !in h.list
  {
    hide Ring;
    assert Owns(h, a) && Owns(h, g);
    assert IsBlock(h, a) ==> a in h.own;
    assert IsBlock(h, g) ==> g in h.own;
  }

  lemma GrownOk(h: Heap, g: nat, n: nat, t: Heap)
    requires Ok(h) && Above(h, g) && n > 0 && t == Grown(h, g, n)
    ensures Ok(t)
  {
    hide Fill, Apart, LinkOk, Next;
    AboveBlocks(h, g, g);
    forall i | 0 <= i < |t.list| ensures LinkOk(t, i) { GrownLink(h, g, n, t, i); }
    forall k ensures Apart(t, k) { GrownApart(h, g, n, t, k); }
    forall a ensures LiveOk(t, a) && Owns(t, a) { GrownOwns(h, g, n, t, a); }
    forall u ensures OwnedOk(t, u) { assert OwnedOk(h, u); FillAt(h.own, g, n, u); if u in h.own { AboveBlocks(h, g, h.own[u]); } }
  }

  lemma GrownLink(h: Heap, g: nat, n: nat, t: Heap, i: nat)
    requires Ring(h) && t == Grown(h, g, n) && i < |h.list|
    ensures LinkOk(t, i)
  {
    At(h, i);
  }

  lemma GrownApart(h: Heap, g: nat, n: nat, t: Heap, k: nat)
    requires Ok(h) && Above(h, g) && t == Grown(h, g, n)
    ensures Apart(t, k)
  {
    hide Ring, LiveOk, Owns, OwnedOk, Fill;
    AboveBlocks(h, g, g);
    assert Apart(h, k);
    if k < |h.list| { GrownIn(h, k); }
  }

  lemma GrownIn(h: Heap, k: nat)
    requires Ring(h) && k < |h.list|
    ensures h.list[k] in h.size
  {
    At(h, k);
  }

  lemma GrownOwns(h: Heap, g: nat, n: nat, t: Heap, a: nat)
    requires Ok(h) && Above(h, g) && n > 0 && t == Grown(h, g, n)
    ensures LiveOk(t, a) && Owns(t, a)
  {
    hide Ring, Fill, Apart;
    AboveBlocks(h, g, a);
    AboveBlocks(h, g, g);
    assert LiveOk(h, a) && Owns(h, a);
    hide Blocks;
    if IsBlock(t, a) {
      forall u | a <= u < a + t.size[a] ensures u in t.own && t.own[u] == a {
        FillAt(h.own, g, n, u);
        assert a != g ==> u in h.own && h.own[u] == a;
      }
    }
  }
}
