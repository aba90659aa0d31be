/** malloc and free of user/umalloc.c over the heap of FreeList. */
module UserMalloc {
  import opened FreeList

  // ----- where free() links a block in -----

  /** The last list entry below `b`. */
  ghost function Pos(s: seq<nat>, b: nat): (i: nat)
    requires |s| > 0 && s[0] < b
    ensures i < |s| && s[i] < b && (i + 1 < |s| ==> b <= s[i + 1])
  {
    if |s| == 1 || s[|s| - 1] < b then |s| - 1 else Pos(s[..|s| - 1], b)
  }

  /** Steps from entry j round to entry i. */
  function Dist(j: nat, i: nat, n: nat): (d: int) { if j <= i then i - j else n - j + i }

  /** free()'s loop stops exactly at the entry below the block. */
  lemma StopsAt(h: Heap, j: nat, b: nat, i: nat)
    requires Ring(h) && j < |h.list| && i < |h.list| && b !in h.list
    requires h.list[i] < b && (i + 1 < |h.list| ==> b < h.list[i + 1])
    ensures h.list[j] in h.ptr
    ensures var p, q := h.list[j], h.ptr[h.list[j]];
            (b > p && b < q) || (p >= q && (b > p || b < q)) <==> j == i
  {
    At(h, j);
    assert h.list[Next(j, |h.list|)] in h.list;
    if j < i { Rises(h.list, j, i); Rises(h.list, j + 1, i); }
    if i < j { Rises(h.list, i + 1, j); Rises(h.list, 0, j); Rises(h.list, 0, i); }
    if 0 < i { Rises(h.list, 0, i); }
    hide LinkOk, Sorted;
  }

  lemma Rises(s: seq<nat>, i: nat, j: nat)
    requires Sorted(s) && i <= j < |s|
    ensures i < j ==> s[i] < s[j]
  {
  }

  /** Whether the block touches the entry after it. */
  lemma TouchNext(h: Heap, i: nat, b: nat, q: nat, t: Heap)
    requires Ring(h) && i < |h.list| && h.list[i] < b && (i + 1 < |h.list| ==> b < h.list[i + 1])
    requires b in h.size && h.list[i] in h.ptr && q == h.ptr[h.list[i]] && t == Inserted(h, i, b)
    ensures q in h.size && q in h.ptr && h.list[i] in h.size
    ensures Touch(t, i + 1) <==> b + h.size[b] == q
    ensures Touch(t, i + 1) ==> q != b && q != h.list[i] && t.list[i + 2] == q
    ensures |t.list| > i + 1 && t.list[i] == h.list[i] && t.list[i + 1] == b
  {
    hide Insert, Sorted;
    At(h, i);
    At(h, Next(i, |h.list|));
    InsertAt(h.list, i, b, i);
    InsertAt(h.list, i, b, i + 1);
    Rises(h.list, 0, i);
    if i + 1 < |h.list| {
      InsertAt(h.list, i, b, i + 2);
      Rises(h.list, i, i + 1);
    }
  }

  /** Whether the entry before touches the block. */
  lemma TouchPrev(h: Heap, i: nat, b: nat, t: Heap)
    requires Ring(h) && i < |h.list| && h.list[i] < b && h.list[i] in h.size
    requires i + 1 < |t.list| && t.list[i] == h.list[i] && t.list[i + 1] == b && b in t.size && b in t.ptr
    requires h.list[i] in t.size && t.size[h.list[i]] == h.size[h.list[i]]
    ensures Touch(t, i) <==> h.list[i] + h.size[h.list[i]] == b
  {
  }

  /** The header writes of free() are those of `Freed`. */
  lemma FreedMaps(h: Heap, i: nat, b: nat, q: nat, ptr1: map<nat, nat>, size1: map<nat, nat>)
    requires Ring(h) && i < |h.list| && h.list[i] < b && (i + 1 < |h.list| ==> b < h.list[i + 1])
    requires b in h.size && h.list[i] in h.size && h.list[i] in h.ptr && q == h.ptr[h.list[i]] && q in h.ptr && q in h.size
    requires ptr1 == h.ptr[b := if b + h.size[b] == q then h.ptr[q] else q]
    requires size1 == if b + h.size[b] == q then h.size[b := h.size[b] + h.size[q]] else h.size
    ensures var p, t := h.list[i], Freed(h, i, b);
            if p + h.size[p] == b then t.ptr == ptr1[p := ptr1[b]] && t.size == size1[p := size1[p] + size1[b]]
            else t.ptr == ptr1[p := b] && t.size == size1
  {
    hide Insert, Ring, Delete, Touch, LinkOk;
    var p, t1 := h.list[i], Inserted(h, i, b);
    var t2 := JoinNext(t1, i + 1);
    assert h.ptr[p] == h.list[Next(i, |h.list|)] by { At(h, i); LinkIs(h, i); }
    TouchNext(h, i, b, q, t1);
    if Touch(t1, i + 1) {
      TouchIs(t1, i + 1);
      DeleteAt(t1.list, i + 2, i);
      DeleteAt(t1.list, i + 2, i + 1);
    }
    assert t2.ptr == ptr1[p := b] && t2.size == size1;
    TouchPrev(h, i, b, t2);
    if Touch(t2, i) { TouchIs(t2, i); }
  }

  lemma LinkIs(h: Heap, i: nat)
    requires i < |h.list| && LinkOk(h, i)
    ensures h.list[i] in h.ptr && h.ptr[h.list[i]] == h.list[Next(i, |h.list|)]
  {
  }

  lemma TouchIs(h: Heap, j: nat)
    requires Touch(h, j)
    ensures 1 <= j && j + 1 < |h.list| && h.list[j] in h.size && h.list[j + 1] in h.size && h.list[j + 1] in h.ptr
    ensures h.list[j] + h.size[h.list[j]] == h.list[j + 1]
  {
  }

  /** The entry below stays where it is; free() leaves freep there. */
  lemma FreedKeeps(h: Heap, i: nat, b: nat, t: Heap)
    requires i < |h.list| && t == Freed(h, i, b)
    ensures i < |t.list| && t.list[i] == h.list[i]
  {
    hide Insert, Delete;
    var t1 := Inserted(h, i, b);
    var t2 := JoinNext(t1, i + 1);
    InsertAt(h.list, i, b, i);
    if Touch(t1, i + 1) { DeleteAt(t1.list, i + 2, i); }
    if Touch(t2, i) { DeleteAt(t2.list, i + 1, i); }
  }

  // ----- headers inside allocated blocks -----

  predicate SameAt(a: map<nat, nat>, b: map<nat, nat>, u: nat) {
    (u in a <==> u in b) && (u in a ==> a[u] == b[u])
  }

  /** No header write lands in a block that is allocated before and after. */
  ghost predicate Untouched(h: Heap, t: Heap) {
    forall u :: u in h.own && h.own[u] in h.live && h.own[u] in t.live ==> SameAt(h.ptr, t.ptr, u) && SameAt(h.size, t.size, u)
  }

  /** Writes at free entries, or at a block that is being freed. */
  lemma WritesFree(h: Heap, t: Heap, i: nat, b: nat)
    requires Blocks(h) && i < |h.list|
    requires forall u :: u != h.list[i] && u != b ==> SameAt(h.ptr, t.ptr, u) && SameAt(h.size, t.size, u)
    requires b in h.own ==> h.own[b] !in h.live || h.own[b] !in t.live
    ensures Untouched(h, t)
  {
    hide SameAt, Sorted, LinkOk;
    var p := h.list[i];
    assert Owns(h, p) && LiveOk(h, p) && OwnedOk(h, p);
    assert p != h.base ==> p in h.own;
    assert p == h.base ==> p !in h.own || h.own[p] !in h.live by {
      if p == h.base && p in h.own { assert LiveOk(h, h.own[p]); }
    }
  }

  /** (nbytes + sizeof(Header) - 1) / sizeof(Header) + 1 */
  function Units(nbytes: nat): (n: nat)
    ensures n >= 1 && nbytes <= (n - 1) * 16 < nbytes + 16
  {
    (nbytes + 15) / 16 + 1
  }

  class Allocator {
    const base: nat
    var ptr: map<nat, nat>
    var size: map<nat, nat>
    var freep: nat
    ghost var list: seq<nat>
    ghost var live: map<nat, nat>
    ghost var own: map<nat, nat>

    ghost function H(): (h: Heap)
      reads this
    {
      Heap(base, ptr, size, list, live, own)
    }

    /** Until the first call freep is null and there is no heap. */
    ghost predicate Valid()
      reads this
    {
      0 < base && if freep == 0 then live == map[] && own == map[] else Ok(H()) && freep in list
    }

    constructor (b: nat)
      requires 0 < b
      ensures Valid() && base == b && freep == 0 && live == map[] && own == map[]
    {
      base, ptr, size, freep, list, live, own := b, map[], map[], 0, [], map[], map[];
    }

    /** free()'s loop: the entry below `bp`, found by walking round from freep. */
    method FindBelow(bp: nat) returns (p: nat, ghost i: nat)
      requires Ok(H()) && freep in list && bp in live
      ensures i < |list| && p == list[i] && p < bp && (i + 1 < |list| ==> bp < list[i + 1])
    {
      hide Ok, Pos, Ring;
      ghost var h := H();
      LiveAt(h, bp);
      i := Pos(list, bp);
      ghost var j: nat := IndexOf(list, freep);
      Strict(h, i, bp);
      p := freep;
      StopsAt(h, j, bp, i);
      while !(bp > p && bp < ptr[p])
        invariant j < |list| && p == list[j] && p in ptr
        decreases Dist(j, i, |list|)
      {
        StopsAt(h, j, bp, i);
        if p >= ptr[p] && (bp > p || bp < ptr[p]) { break; }
        Onward(h, j, i);
        p, j := ptr[p], Next(j, |list|);
      }
      StopsAt(h, j, bp, i);
    }

    method Free(ap: nat)
      requires Valid() && 0 < ap && ap - 1 in live
      modifies this
      ensures Valid() && freep != 0 && live == old(live) - {ap - 1}
      ensures Untouched(old(H()), H())
      ensures own.Keys == old(own).Keys && HasFit(H(), old(live)[ap - 1])
    {
      hide Ok, Freed, Untouched, Ring, HasFit;
      var bp := ap - 1;
      ghost var h := H();
      LiveAt(h, bp);
      ghost var i;
      var p;
      p, i := FindBelow(bp);
      LinkIs(h, i) by { At(h, i); }
      ghost var q, t := ptr[p], Freed(h, i, bp);
      TouchNext(h, i, bp, q, Inserted(h, i, bp));
      if bp + size[bp] == ptr[p] {
        size := size[bp := size[bp] + size[ptr[p]]];
        ptr := ptr[bp := ptr[ptr[p]]];
      } else {
        ptr := ptr[bp := ptr[p]];
      }
      FreedMaps(h, i, bp, q, ptr, size);
      if p + size[p] == bp {
        size := size[p := size[p] + size[bp]];
        ptr := ptr[p := ptr[bp]];
      } else {
        ptr := ptr[p := bp];
      }
      freep := p;
      list, live, own := t.list, t.live, t.own;
      FreedOk(h, i, bp, t);
      FreedKeeps(h, i, bp, t);
      FreedUntouched(h, i, bp, t);
      FreedFits(h, i, bp, t);
      BasePositive(h, i);
    }

    /** sbrk either fails or answers `grow`, above everything handed out so far. */
    method Morecore(nu: nat, grow: int) returns (ok: bool)
      requires Valid() && freep != 0 && nu > 0 && (grow == -1 || (grow > 0 && Above(H(), grow)))
      modifies this
      ensures Valid() && freep != 0 && live == old(live) && Untouched(old(H()), H())
      ensures !ok ==> grow == -1 && H() == old(H())
      ensures ok ==> grow > 0 && own.Keys == Fill(old(own), grow, Request(nu)).Keys && HasFit(H(), nu)
    {
      hide Ok, Untouched, Above, HasFit;
      UntouchedSelf(H());
      if grow == -1 { return false; }
      ghost var h := H();
      var n := Request(nu);
      size := size[grow := n];
      ghost var t := Grown(h, grow, n);
      live, own := t.live, t.own;
      GrownOk(h, grow, n, t);
      NotLive(h, grow);
      Free(grow + 1);
      UntouchedGrown(h, grow, n, t, H());
      FitLess(H(), n, nu);
      return true;
    }

    /** First fit from freep round; `j` is the entry before the fit. */
    method Search(nunits: nat) returns (found: bool, prevp: nat, p: nat, ghost j: nat)
      requires Valid() && freep != 0 && nunits > 0
      ensures found ==> j + 1 < |list| && prevp == list[j] && p == list[j + 1] && p in size && p in ptr && size[p] >= nunits
      ensures found ==> forall i :: 0 <= i < |list| && Seen(IndexOf(list, freep), j, i) ==> Small(H(), i, nunits)
      ensures !found ==> forall i :: 0 <= i < |list| ==> list[i] in size && size[list[i]] < nunits
    {
      hide Ok, Ring, IsBlock, Small;
      ghost var h, n := H(), |list|;
      OkRing(h);
      ghost var f: nat := IndexOf(list, freep);
      j := f;
      prevp := freep;
      Onto(h, f);
      p := ptr[prevp];
      ghost var steps := n;
      while true
        invariant 0 < steps && j < n && prevp == list[j] && p == list[Next(j, n)] && p in size && p in ptr
        invariant steps == 1 + Dist(Next(j, n), f, n)
        invariant forall i :: 0 <= i < n && Seen(f, j, i) ==> Small(h, i, nunits)
        decreases steps
      {
        ghost var k := Next(j, n);
        Onto(h, k);
        SmallAt(h, k, nunits);
        if size[p] >= nunits {
          return true, prevp, p, j;
        }
        IndexUnique(h, k, f);
        if p == freep {
          forall i | 0 <= i < n ensures list[i] in size && size[list[i]] < nunits { SmallAt(h, i, nunits); }
          return false, prevp, p, j;
        }
        j, steps := k, steps - 1;
        prevp, p := p, ptr[p];
      }
      assert false;
    }

    /** Hands out list entry j + 1, whole or its last `nunits` units. */
    method Take(prevp: nat, p: nat, nunits: nat, ghost j: nat) returns (r: nat)
      requires Valid() && freep != 0 && 0 < nunits
      requires j + 1 < |list| && prevp == list[j] && p == list[j + 1] && p in size && p in ptr && size[p] >= nunits
      modifies this
      ensures Valid() && freep != 0 && r > 0 && r - 1 !in old(live) && live == old(live)[r - 1 := nunits]
      ensures own.Keys == old(own).Keys && Untouched(old(H()), H())
    {
      hide Ok, Untouched;
      ghost var h := H();
      var a := p;
      if size[p] == nunits {
        ptr := ptr[prevp := ptr[p]];
        ghost var t := Removed(h, j);
        list, live := t.list, t.live;
        RemovedOk(h, j, t);
        RemovedKeeps(h, j, t);
      } else {
        size := size[p := size[p] - nunits];
        a := p + size[p];
        size := size[a := nunits];
        ghost var t := TailTaken(h, j + 1, nunits);
        live, own := t.live, t.own;
        TailOk(h, j + 1, nunits, t);
        TailKeeps(h, j, nunits, t);
      }
      freep := prevp;
      r := a + 1;
    }

    /** At most one call of sbrk, which would answer `grow`; `asked` whether it was
        made. */
    method Malloc(nbytes: nat, grow: int) returns (r: nat, asked: bool)
      requires Valid() && (grow == -1 || (grow > 0 && Above(H(), grow)))
      modifies this
      ensures Valid() && Untouched(old(H()), H())
      ensures r == 0 ==> asked && grow == -1 && live == old(live) && own == old(own) && !HasFit(H(), Units(nbytes))
      ensures r != 0 ==> r - 1 !in old(live) && live == old(live)[r - 1 := Units(nbytes)]
      ensures asked <==> old(freep) == 0 || !HasFit(old(H()), Units(nbytes))
      ensures own.Keys == if asked && grow > 0 then Fill(old(own), grow, Request(Units(nbytes))).Keys else old(own).Keys
    {
      hide Ok, Untouched, HasFit, Above, Units;
      ghost var h := H();
      UntouchedSelf(h);
      var nunits := Units(nbytes);
      asked := false;
      if freep == 0 {
        ptr, size, freep := ptr[base := base], size[base := 0], base;
        list := [base];
        FirstOk(H());
        OnlyBase(H(), nunits);
        UntouchedFirst(h, H());
        AboveFirst(h, H(), grow);
      }
      var found, prevp, p;
      ghost var j;
      found, prevp, p, j := Search(nunits);
      if found {
        SomeFit(H(), nunits, j + 1);
      } else {
        NoFit(H(), nunits);
        ghost var h1 := H();
        asked := true;
        var ok := Morecore(nunits, grow);
        if !ok { return 0, true; }
        UntouchedTrans(h, h1, H());
        found, prevp, p, j := Search(nunits);
        if !found { NoFit(H(), nunits); }
      }
      ghost var h2 := H();
      r := Take(prevp, p, nunits, j);
      UntouchedTrans(h, h2, H());
    }
  }

  /** sbrk is asked for at least 4096 units. */
  function Request(nu: nat): (n: nat)
    ensures nu <= n && 4096 <= n && (n == nu || n == 4096)
  {
    if nu < 4096 then 4096 else nu
  }

  /** Some free block has at least `n` units. */
  predicate HasFit(h: Heap, n: nat) {
    exists i :: 0 <= i < |h.list| && h.list[i] in h.size && h.size[h.list[i]] >= n
  }

  lemma FitLess(h: Heap, n: nat, k: nat)
    requires HasFit(h, n) && k <= n
    ensures HasFit(h, k)
  {
  }

  /** Freeing makes at least that much room in one piece. */
  lemma FreedFits(h: Heap, i: nat, b: nat, t: Heap)
    requires Ok(h) && i < |h.list| && h.list[i] < b && (i + 1 < |h.list| ==> b < h.list[i + 1]) && b in h.live
    requires t == Freed(h, i, b)
    ensures HasFit(t, h.live[b])
  {
    hide Ok, Ring, Insert, Delete;
    LiveAt(h, b);
    Onto(h, i);
    var t1 := Inserted(h, i, b);
    var t2 := JoinNext(t1, i + 1);
    TouchNext(h, i, b, h.ptr[h.list[i]], t1);
    if Touch(t1, i + 1) {
      DeleteAt(t1.list, i + 2, i);
      DeleteAt(t1.list, i + 2, i + 1);
    }
    assert t2.list[i] == h.list[i] && t2.list[i + 1] == b && t2.size[b] >= h.live[b];
    if Touch(t2, i) {
      DeleteAt(t2.list, i + 1, i);
      assert t.size[t.list[i]] >= h.live[b];
    } else {
      assert t.size[t.list[i + 1]] >= h.live[b];
    }
  }

  lemma UntouchedSelf(h: Heap)
    ensures Untouched(h, h)
  {
  }

  lemma NotLive(h: Heap, g: nat)
    requires Ok(h) && Above(h, g)
    ensures g !in h.live
  {
    AboveBlocks(h, g, g);
  }

  lemma UntouchedGrown(h: Heap, g: nat, n: nat, t: Heap, t2: Heap)
    requires Ok(h) && Above(h, g) && n > 0 && t == Grown(h, g, n) && Untouched(t, t2) && t2.live == h.live
    ensures Untouched(h, t2)
  {
    hide Fill, Ring;
    forall u | u in h.own && h.own[u] in h.live && h.own[u] in t2.live
      ensures SameAt(h.ptr, t2.ptr, u) && SameAt(h.size, t2.size, u)
    {
      FillAt(h.own, g, n, u);
      assert OwnedOk(h, u);
      AboveBlocks(h, g, h.own[u]);
      assert u < g;
      assert SameAt(t.ptr, t2.ptr, u) && SameAt(t.size, t2.size, u);
    }
  }

  /** Entry i lies on the way from just after f up to j. */
  predicate Seen(f: nat, j: nat, i: nat) { if f <= j then f < i <= j else f < i || i <= j }

  lemma Onto(h: Heap, i: nat)
    requires Ring(h) && i < |h.list|
    ensures h.list[i] in h.ptr && h.list[i] in h.size && h.ptr[h.list[i]] == h.list[Next(i, |h.list|)]
    ensures h.list[Next(i, |h.list|)] in h.size && h.list[Next(i, |h.list|)] in h.ptr
    ensures i == 0 <==> h.list[i] == h.base
    ensures i == 0 ==> h.size[h.list[i]] == 0
  {
    At(h, i);
    At(h, Next(i, |h.list|));
  }

  lemma SmallAt(h: Heap, i: nat, n: nat)
    requires Ring(h) && i < |h.list|
    ensures h.list[i] in h.size && (Small(h, i, n) <==> h.size[h.list[i]] < n)
  {
    At(h, i);
  }

  lemma IndexUnique(h: Heap, i: nat, j: nat)
    requires Ring(h) && i < |h.list| && j < |h.list|
    ensures h.list[i] == h.list[j] <==> i == j
  {
    if i != j { SortedApart(h.list, i, j); }
  }

  lemma BasePositive(h: Heap, i: nat)
    requires Ring(h) && i < |h.list|
    ensures h.base <= h.list[i]
  {
    At(h, i);
  }

  lemma FreedUntouched(h: Heap, i: nat, b: nat, t: Heap)
    requires Ok(h) && i < |h.list| && h.list[i] < b && (i + 1 < |h.list| ==> b < h.list[i + 1]) && b in h.live
    requires t == Freed(h, i, b) && t.live == h.live - {b}
    ensures Untouched(h, t)
  {
    hide Ok, Ring, Freed, Untouched, Touch;
    LiveAt(h, b);
    Onto(h, i);
    var p, q := h.list[i], h.ptr[h.list[i]];
    var touch := b + h.size[b] == q;
    var ptr1 := h.ptr[b := if touch then h.ptr[q] else q];
    var size1 := if touch then h.size[b := h.size[b] + h.size[q]] else h.size;
    FreedMaps(h, i, b, q, ptr1, size1);
    assert Owns(h, b) && b in h.own && h.own[b] == b by { OwnsSelf(h, b); }
    OkBlocks(h);
    WritesFree(h, t, i, b);
  }

  lemma OwnsSelf(h: Heap, b: nat)
    requires Ok(h) && IsBlock(h, b)
    ensures Owns(h, b) && b in h.own && h.own[b] == b
  {
    hide Ring;
    assert Owns(h, b);
  }

  lemma OkBlocks(h: Heap)
    requires Ok(h)
    ensures Blocks(h)
  {
  }

  predicate Small(h: Heap, i: nat, n: nat) {
    i < |h.list| && h.list[i] in h.size && h.size[h.list[i]] < n
  }

  lemma OkRing(h: Heap)
    requires Ok(h)
    ensures Ring(h)
  {
  }

  ghost function IndexOf(s: seq<nat>, a: nat): (i: nat)
    requires a in s
    ensures i < |s| && s[i] == a
  {
    var i :| 0 <= i < |s| && s[i] == a;
    i
  }

  lemma LiveAt(h: Heap, b: nat)
    requires Ok(h) && b in h.live
    ensures Ring(h) && |h.list| > 0 && h.list[0] < b && b !in h.list && b in h.size && h.size[b] == h.live[b]
  {
    assert LiveOk(h, b);
  }

  lemma Strict(h: Heap, i: nat, b: nat)
    requires Ring(h) && i + 1 < |h.list| ==> b <= h.list[i + 1]
    requires b !in h.list
    ensures Ring(h) && i + 1 < |h.list| ==> b < h.list[i + 1]
  {
  }

  lemma Onward(h: Heap, j: nat, i: nat)
    requires Ring(h) && j < |h.list| && i < |h.list| && i != j
    ensures h.list[j] in h.ptr && h.ptr[h.list[j]] == h.list[Next(j, |h.list|)] && h.ptr[h.list[j]] in h.ptr
    ensures 0 <= Dist(Next(j, |h.list|), i, |h.list|) < Dist(j, i, |h.list|)
  {
    At(h, j);
    At(h, Next(j, |h.list|));
  }

  lemma FreeNotLive(h: Heap, i: nat)
    requires Blocks(h) && i < |h.list|
    ensures h.list[i] in h.own ==> h.own[h.list[i]] !in h.live
  {
    hide Sorted, LinkOk;
    var p := h.list[i];
    assert Owns(h, p) && LiveOk(h, p) && OwnedOk(h, p);
    if p in h.own { assert LiveOk(h, h.own[p]); }
  }

  lemma RemovedKeeps(h: Heap, j: nat, t: Heap)
    requires Ok(h) && j + 1 < |h.list| && h.list[j + 1] in h.size && h.list[j + 1] in h.ptr && t == Removed(h, j)
    ensures j < |t.list| && t.list[j] == h.list[j] && h.base <= h.list[j] && Untouched(h, t)
  {
    hide Ok, Blocks, Delete, Untouched;
    DeleteAt(h.list, j + 1, j);
    OkBlocks(h);
    OkRing(h);
    BasePositive(h, j);
    FreeNotLive(h, j);
    WritesFree(h, t, j, h.list[j]);
  }

  lemma TailKeeps(h: Heap, j: nat, n: nat, t: Heap)
    requires Ok(h) && j + 1 < |h.list| && h.list[j + 1] in h.size && 0 < n < h.size[h.list[j + 1]]
    requires t == TailTaken(h, j + 1, n)
    ensures h.base <= h.list[j] && h.list[j] in h.list && Untouched(h, t)
  {
    hide Ok, Blocks, Untouched;
    OkBlocks(h);
    OkRing(h);
    BasePositive(h, j);
    var p := h.list[j + 1];
    var a := p + h.size[p] - n;
    TailFresh(h, j + 1, n, a);
    FreeNotLive(h, j + 1);
    assert h.own[a] !in h.live by { ListNotLive(h, j + 1); }
    WritesFree(h, t, j + 1, a);
  }

  lemma ListNotLive(h: Heap, i: nat)
    requires Blocks(h) && i < |h.list|
    ensures h.list[i] !in h.live
  {
    hide Ring;
    assert LiveOk(h, h.list[i]);
  }

  lemma FirstOk(h: Heap)
    requires h.list == [h.base] && h.live == map[] && h.own == map[]
    requires h.base in h.ptr && h.ptr[h.base] == h.base && h.base in h.size && h.size[h.base] == 0
    ensures Ok(h)
  {
  }

  lemma UntouchedFirst(h: Heap, t: Heap)
    requires h.own == map[]
    ensures Untouched(h, t)
  {
  }

  lemma AboveFirst(h: Heap, t: Heap, g: int)
    requires g > 0 ==> Above(h, g)
    requires t.own == h.own && t.base == h.base
    ensures g > 0 ==> Above(t, g)
  {
  }

  lemma OnlyBase(h: Heap, n: nat)
    requires h.list == [h.base] && h.base in h.size && h.size[h.base] == 0 && n > 0
    ensures !HasFit(h, n)
  {
  }

  lemma SomeFit(h: Heap, n: nat, i: nat)
    requires i < |h.list| && h.list[i] in h.size && h.size[h.list[i]] >= n
    ensures HasFit(h, n)
  {
  }

  lemma NoFit(h: Heap, n: nat)
    requires forall i :: 0 <= i < |h.list| ==> h.list[i] in h.size && h.size[h.list[i]] < n
    ensures !HasFit(h, n)
  {
  }

  lemma UntouchedTrans(h: Heap, t: Heap, t2: Heap)
    requires (Ok(h) || h.own == map[]) && Ok(t) && Untouched(h, t) && Untouched(t, t2)
    requires forall a :: a in h.live ==> a in t.live && t.live[a] == h.live[a]
    ensures Untouched(h, t2)
  {
    forall u | u in h.own && h.own[u] in h.live && h.own[u] in t2.live
      ensures SameAt(h.ptr, t2.ptr, u) && SameAt(h.size, t2.size, u)
    {
      var a := h.own[u];
      assert OwnedOk(h, u) && LiveOk(h, a) && LiveOk(t, a) && Owns(t, a);
      assert t.own[u] == a;
      assert SameAt(h.ptr, t.ptr, u) && SameAt(h.size, t.size, u);
    }
    hide Ok, Ring;
  }
}
