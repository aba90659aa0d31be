/** The allocator of user/umalloc.c on top of sbrk: sys_sbrk of kernel/sysproc.c and
    the size arithmetic of growproc. */
module HeapBreak {
  import opened FreeList
  import opened UserMalloc
  import P = ProcessMemory

  /** sbrk takes an int: the low 32 bits of the byte count, as a signed number. */
  function ToInt(bytes: nat): (n: int)
    ensures -0x8000_0000 <= n < 0x8000_0000
  {
    var low := bytes % 0x1_0000_0000;
    if low < 0x8000_0000 then low else low - 0x1_0000_0000
  }

  /** The bytes morecore(nu) asks for. */
  function Bytes(nu: nat): (n: nat) { 16 * Request(nu) }

  /** What a successful sbrk answers: the old break, which sys_sbrk keeps in an int
      and returns as an address. */
  function Answer(brk: nat): (a: nat)
    requires brk < 0x1_0000_0000
    ensures a == brk <==> brk < 0x8000_0000
  {
    ToInt(brk) % 0x1_0000_0000_0000_0000
  }

  /** The region ends where sbrk can still name the break. */
  predicate InReach(brk: nat, nu: nat) { brk + Bytes(nu) < 0x8000_0000 }

  /** Where a successful growproc puts the break: at the end of the region morecore
      takes for its own iff the byte count is positive as an int, and short of it
      otherwise. */
  lemma BreakMoves(brk: nat, nu: nat)
    requires brk < 0x8000_0000
    ensures P.NewSize(brk, ToInt(Bytes(nu))) == brk + Bytes(nu) <==> Bytes(nu) < 0x8000_0000
    ensures P.NewSize(brk, ToInt(Bytes(nu))) <= brk + Bytes(nu)
  {
    hide Request;
    assert Bytes(nu) > 0 by { Asks(nu); }
  }

  lemma Asks(nu: nat)
    ensures Request(nu) >= 4096
  {}

  /** Every unit of the heap lies below unit g, and so does what follows from g. */
  lemma FilledAbove(own: map<nat, nat>, g: nat, n: nat, h: Heap, end: nat)
    requires n > 0 && h.own.Keys == Fill(own, g, n).Keys && h.base < g && forall u :: u in own ==> u < g
    ensures Above(h, end) <==> g + n <= end
  {
    hide Fill;
    forall u: nat ensures u in h.own <==> u in own || g <= u < g + n { FillAt(own, g, n, u); assert u in h.own.Keys <==> u in Fill(own, g, n).Keys; }
    assert g + n - 1 in h.own;
  }

  lemma SameUnits(h: Heap, t: Heap, end: nat)
    requires t.own.Keys == h.own.Keys && t.base == h.base && Above(h, end)
    ensures Above(t, end)
  {
    forall u | u in t.own ensures u < end { assert u in t.own.Keys; }
  }

  /** A process that gets memory only through malloc. */
  class Program {
    const heap: Allocator
    var brk: nat                 // p->sz, in bytes

    /** The break is on a unit, sbrk can name it, and the heap lies below it. */
    ghost predicate Valid()
      reads this, heap
    {
      heap.Valid() && brk % 16 == 0 && brk < 0x8000_0000 && Above(heap.H(), brk / 16)
    }

    constructor (base: nat, sz: nat)
      requires 0 < base < sz / 16 && sz % 16 == 0 && sz < 0x8000_0000
      ensures Valid() && fresh(heap) && brk == sz
    {
      heap := new Allocator(base);
      brk := sz;
    }

    /** malloc, with the one call of sbrk it makes if nothing fits; `memory` is whether
        growproc succeeds. What sbrk answers next is again above the heap iff the
        request was in reach. */
    method Malloc(nbytes: nat, memory: bool) returns (r: nat, asked: bool)
      requires Valid()
      modifies this, heap
      ensures heap.Valid() && Untouched(old(heap.H()), heap.H())
      ensures brk == if asked && memory then P.NewSize(old(brk), ToInt(Bytes(Units(nbytes)))) else old(brk)
      ensures Valid() <==> (asked && memory ==> InReach(old(brk), Units(nbytes)))
      ensures r == 0 ==> asked && !memory && heap.live == old(heap.live)
      ensures r != 0 ==> r - 1 !in old(heap.live) && heap.live == old(heap.live)[r - 1 := Units(nbytes)]
    {
      hide Above, Untouched, HasFit, Fill, Units, Request, P.NewSize, ToInt;
      ghost var h, n := heap.H(), Units(nbytes);
      AboveBase(h, brk / 16);
      BreakMoves(brk, n);
      Asks(n);
      r, asked := heap.Malloc(nbytes, if memory then Answer(brk) / 16 else -1);
      if asked && memory {
        UnitSizes(brk, Request(n));
        FilledAbove(h.own, brk / 16, Request(n), heap.H(), P.NewSize(brk, ToInt(Bytes(n))) / 16);
        brk := P.NewSize(brk, ToInt(16 * Request(Units(nbytes))));
        OnUnit(old(brk), Request(n));
      } else {
        SameUnits(h, heap.H(), brk / 16);
      }
    }
  }

  lemma AboveBase(h: Heap, g: nat)
    requires Above(h, g)
    ensures h.base < g && forall u :: u in h.own ==> u < g
  {}

  lemma UnitSizes(brk: nat, n: nat)
    requires brk % 16 == 0
    ensures forall end: nat :: brk / 16 + n <= end / 16 <==> brk + 16 * n <= end
  {
    forall end: nat ensures brk / 16 + n <= end / 16 <==> brk + 16 * n <= end {}
  }

  lemma Sixteen(z: int)
    ensures 16 * z % 16 == 0
  {}

  lemma LowBits(x: int)
    requires x % 16 == 0
    ensures x % 0x1_0000_0000 % 16 == 0
  {
    var q, y := x / 0x1_0000_0000, x / 16;
    assert x == 16 * y;
    var z := y - 0x1000_0000 * q;
    assert x % 0x1_0000_0000 == x - 0x1_0000_0000 * q == 16 * z;
    Sixteen(z);
  }

  lemma IntOnUnit(x: nat)
    requires x % 16 == 0
    ensures ToInt(x) % 16 == 0
  {
    LowBits(x);
  }

  lemma SumOnUnit(brk: nat, k: int)
    requires brk % 16 == 0 && k % 16 == 0
    ensures (brk + k) % 16 == 0
  {}

  lemma SizeOnUnit(brk: nat, k: int)
    requires brk % 16 == 0 && (brk + k) % 0x1_0000_0000 % 16 == 0
    ensures P.NewSize(brk, k) % 16 == 0
  {}

  lemma OnUnit(brk: nat, n: nat)
    requires brk % 16 == 0
    ensures P.NewSize(brk, ToInt(16 * n)) % 16 == 0
  {
    hide ToInt, P.NewSize;
    assert 16 * n % 16 == 0;
    var k := ToInt(16 * n);
    IntOnUnit(16 * n);
    SumOnUnit(brk, k);
    LowBits(brk + k);
    SizeOnUnit(brk, k);
  }
}
