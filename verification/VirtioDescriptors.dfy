/** The descriptor allocator of kernel/virtio_disk.c, in place. */
module VirtioDescriptors {
  import opened VirtioDisk

  lemma {:induction false} FirstFreeCount(free: seq<bool>, i: nat)
    requires i <= |free|
    ensures FirstFree(free, i) < 0 <==> Count(free) == Count(free[..i])
    ensures Count(free[..i]) <= Count(free)
    decreases |free| - i
  {
    if i == |free| {
      assert free[..i] == free;
    } else {
      FirstFreeCount(free, i + 1);
      assert free[..i + 1][..i] == free[..i];
    }
  }

  /** One descriptor can be had iff one is free, and then there is one less. */
  lemma TakeCount(free: seq<bool>)
    ensures FirstFree(free, 0) >= 0 <==> Count(free) >= 1
    ensures FirstFree(free, 0) >= 0 ==> Count(free[FirstFree(free, 0) := false]) == Count(free) - 1
  {
    FirstFreeCount(free, 0);
    assert Count(free[..0]) == 0;
    if FirstFree(free, 0) >= 0 { CountSet(free, FirstFree(free, 0), false); }
  }

  /** Three descriptors can be had iff three are free. */
  lemma Alloc3Count(free: seq<bool>)
    requires |free| == NUM
    ensures Alloc3(free).0 >= 0 <==> Count(free) >= 3
  {
    hide Count, FirstFree;
    TakeCount(free);
    var i0 := FirstFree(free, 0);
    if i0 >= 0 {
      TakeCount(free[i0 := false]);
      var i1 := FirstFree(free[i0 := false], 0);
      if i1 >= 0 { TakeCount(free[i0 := false][i1 := false]); }
    }
  }

  class Descriptors {
    const free: array<bool>
    const desc: array<Desc>

    ghost predicate Valid()
      reads this
    {
      free.Length == NUM && desc.Length == NUM
    }

    constructor ()
      ensures Valid() && fresh(free) && fresh(desc)
      ensures forall i :: 0 <= i < NUM ==> free[i] && desc[i] == ZERO
    {
      free := new bool[NUM](_ => true);
      desc := new Desc[NUM](_ => ZERO);
    }

    /** Takes the lowest free descriptor, or returns -1. */
    method AllocDesc() returns (i: int)
      requires Valid()
      modifies free
      ensures i == FirstFree(old(free[..]), 0)
      ensures free[..] == if i < 0 then old(free[..]) else old(free[..])[i := false]
    {
      i := 0;
      while i < NUM
        invariant 0 <= i <= NUM && free[..] == old(free[..]) && FirstFree(free[..], 0) == FirstFree(free[..], i)
      {
        if free[i] {
          free[i] := false;
          return;
        }
        i := i + 1;
      }
      i := -1;
    }

    /** Panics when the descriptor is out of range or already free. */
    method FreeDesc(i: nat)
      requires Valid() && i < NUM && !free[i]
      modifies free, desc
      ensures free[..] == old(free[..])[i := true] && desc[..] == old(desc[..])[i := ZERO]
    {
      desc[i] := Desc(Null, 0, 0, 0);
      free[i] := true;
    }

    /** Frees descriptor after descriptor until one has no NEXT flag; cannot run
        for ever, since each round frees a descriptor that was in use. */
    method FreeChain(h: nat)
      requires Valid() && VirtioDisk.FreeChain(free[..], desc[..], h).Chain?
      modifies free, desc
      ensures Chain(free[..], desc[..]) == VirtioDisk.FreeChain(old(free[..]), old(desc[..]), h)
    {
      ghost var goal := VirtioDisk.FreeChain(free[..], desc[..], h);
      var i, more := h, true;
      while more
        invariant if more then VirtioDisk.FreeChain(free[..], desc[..], i) == goal else Chain(free[..], desc[..]) == goal
        decreases NUM - Count(free[..]), more
      {
        var flag, next := desc[i].flags, desc[i].next;
        CountSet(free[..], i, true);
        CountMax(free[..][i := true]);
        FreeDesc(i);
        if flag % 2 == 1 { i := next; } else { more := false; }
      }
    }

    /** Takes three descriptors, or none. */
    method Alloc3Desc() returns (ok: bool, i0: int, i1: int, i2: int)
      requires Valid() && forall i :: 0 <= i < NUM && free[i] ==> desc[i] == ZERO
      modifies free, desc
      ensures ok <==> Count(old(free[..])) >= 3
      ensures ok ==> (i0, i1, i2) == Alloc3(old(free[..])) && i0 >= 0
      ensures ok ==> free[..] == old(free[..])[i0 := false][i1 := false][i2 := false]
      ensures !ok ==> free[..] == old(free[..])
      ensures desc[..] == old(desc[..])
    {
      ghost var f0, d0 := free[..], desc[..];
      Alloc3Count(f0);
      i1, i2, ok := -1, -1, false;
      i0 := AllocDesc();
      if i0 < 0 { return; }
      i1 := AllocDesc();
      if i1 < 0 {
        FreeDesc(i0);
        assert free[..] == f0 && desc[..] == d0;
        return;
      }
      i2 := AllocDesc();
      if i2 < 0 {
        FreeDesc(i0);
        FreeDesc(i1);
        assert free[..] == f0 && desc[..] == d0;
        return;
      }
      ok := true;
    }
  }
}
