/** The code of kernel/bio.c: NBUF buffers on a doubly linked ring in order of
    use, searched forwards for a cached block and backwards for a victim. */
module BufferCache {
  import opened Params
  import opened Blocks
  import opened BufferCoherence

  // ----- the ring as a pair of link tables -----

  /** Element `k` of the ring; position -1 and |order| are the list head `n`. */
  function Pos(order: seq<nat>, n: nat, k: int): (i: nat) {
    if 0 <= k < |order| then order[k] else n
  }

  /** `nx` and `pv` link the head and `order` into one ring. */
  predicate Linked(nx: seq<nat>, pv: seq<nat>, order: seq<nat>, n: nat) {
    && |nx| == |pv| == n + 1
    && (forall k :: 0 <= k < |order| ==> order[k] < n)
    && (forall j, k :: 0 <= j < k < |order| ==> order[j] != order[k])
    && (forall k :: -1 <= k < |order| ==> nx[Pos(order, n, k)] == Pos(order, n, k + 1))
    && (forall k :: 0 <= k <= |order| ==> pv[Pos(order, n, k)] == Pos(order, n, k - 1))
  }

  function Without(order: seq<nat>, k: nat): (r: seq<nat>)
    requires k < |order|
  {
    order[..k] + order[k + 1..]
  }

  lemma Unlink(nx: seq<nat>, pv: seq<nat>, order: seq<nat>, n: nat, k: nat)
    requires Linked(nx, pv, order, n) && k < |order|
    ensures pv[order[k]] <= n && nx[order[k]] <= n && order[k] !in Without(order, k)
    ensures Linked(nx[pv[order[k]] := nx[order[k]]], pv[nx[order[k]] := pv[order[k]]], Without(order, k), n)
  {
    var b, r := order[k], Without(order, k);
    assert Pos(order, n, k) == b;
    assert nx[b] == Pos(order, n, k + 1) && pv[b] == Pos(order, n, k - 1);
    var nx', pv' := nx[pv[b] := nx[b]], pv[nx[b] := pv[b]];
    forall q | -1 <= q < |r| ensures nx'[Pos(r, n, q)] == Pos(r, n, q + 1) {
      var p := if q < k then q else q + 1;
      assert Pos(r, n, q) == Pos(order, n, p);
      assert Pos(r, n, q + 1) == if q + 1 < k then Pos(order, n, q + 1) else Pos(order, n, q + 2);
    }
    forall q | 0 <= q <= |r| ensures pv'[Pos(r, n, q)] == Pos(r, n, q - 1) {
      var p := if q < k then q else q + 1;
      assert Pos(r, n, q) == Pos(order, n, p);
      assert Pos(r, n, q - 1) == if q - 1 < k then Pos(order, n, q - 1) else Pos(order, n, q);
    }
  }

  lemma PushFront(nx: seq<nat>, pv: seq<nat>, order: seq<nat>, n: nat, b: nat)
    requires Linked(nx, pv, order, n) && b < n && b !in order
    ensures nx[n] <= n && Linked(nx[b := nx[n]][n := b], pv[b := n][nx[n] := b], [b] + order, n)
  {
    var r := [b] + order;
    assert Pos(order, n, -1) == n && nx[n] == Pos(order, n, 0);
    var nx', pv' := nx[b := nx[n]][n := b], pv[b := n][nx[n] := b];
    forall q | -1 <= q < |r| ensures nx'[Pos(r, n, q)] == Pos(r, n, q + 1) {
      assert Pos(r, n, q + 1) == if q < 0 then b else Pos(order, n, q);
      if q > 0 {
        assert Pos(r, n, q) == Pos(order, n, q - 1);
      }
    }
    forall q | 0 <= q <= |r| ensures pv'[Pos(r, n, q)] == Pos(r, n, q - 1) {
      if q > 0 {
        assert Pos(r, n, q) == Pos(order, n, q - 1);
        assert q > 1 ==> Pos(r, n, q - 1) == Pos(order, n, q - 2);
      }
    }
  }

  /** The ring lists buffers by when they were last given up, latest first; those
      never used come last. */
  predicate ByAge(order: seq<nat>, unused: seq<nat>, clock: nat) {
    && (forall k :: 0 <= k < |order| ==> order[k] < |unused| && unused[order[k]] <= clock)
    && forall j, k :: 0 <= j < k < |order| ==> unused[order[j]] >= unused[order[k]]
  }

  lemma YoungestFirst(order: seq<nat>, unused: seq<nat>, clock: nat, b: nat, k: nat)
    requires ByAge(order, unused, clock) && k < |order| && order[k] == b && forall i, j :: 0 <= i < j < |order| ==> order[i] != order[j]
    ensures ByAge([b] + Without(order, k), unused[b := clock + 1], clock + 1)
  {
    var r, u := [b] + Without(order, k), unused[b := clock + 1];
    forall q | 0 <= q < |r| ensures r[q] < |u| && u[r[q]] <= clock + 1 {
      assert q > 0 ==> r[q] == order[if q - 1 < k then q - 1 else q];
    }
    forall p, q | 0 <= p < q < |r| ensures u[r[p]] >= u[r[q]] {
      assert r[q] == order[if q - 1 < k then q - 1 else q];
      assert p > 0 ==> r[p] == order[if p - 1 < k then p - 1 else p];
    }
  }

  /** The first unreferenced buffer from the far end has been so the longest. */
  lemma OldestFirst(order: seq<nat>, unused: seq<nat>, clock: nat, bufs: seq<Buf>, k: nat)
    requires ByAge(order, unused, clock) && k < |order| && |bufs| == |unused|
    requires forall i :: 0 <= i < |bufs| ==> i in order
    requires forall j :: k < j < |order| ==> order[j] < |bufs| && bufs[order[j]].refcnt != 0
    ensures forall j :: 0 <= j < |bufs| && bufs[j].refcnt == 0 ==> unused[order[k]] <= unused[j]
  {
    forall j | 0 <= j < |bufs| && bufs[j].refcnt == 0 ensures unused[order[k]] <= unused[j] {
      assert j in order;
      var m :| 0 <= m < |order| && order[m] == j;
    }
  }

  /** What bget's critical section decides. */
  datatype Bget = Found(i: nat) | Recycled(i: nat) | NoBuffers

  /** bget's choice over the buffers `bufs`, in use order `order`. */
  predicate Chosen(bufs: seq<Buf>, order: seq<nat>, key: Key, r: Bget) {
    match r
    case Found(i) => i < |bufs| && bufs[i].key == key
    case Recycled(i) =>
      && key !in Keys(bufs)
      && exists p :: 0 <= p < |order| && order[p] == i < |bufs| && bufs[i].refcnt == 0
                     && forall q :: p < q < |order| && order[q] < |bufs| ==> bufs[order[q]].refcnt != 0
    case NoBuffers => key !in Keys(bufs) && forall i :: 0 <= i < |bufs| ==> bufs[i].refcnt != 0
  }

  function AfterBget(bufs: seq<Buf>, key: Key, r: Bget): (t: seq<Buf>)
    requires r.NoBuffers? || r.i < |bufs|
  {
    match r
    case Found(i) => bufs[i := bufs[i].(refcnt := bufs[i].refcnt + 1)]
    case Recycled(i) => bufs[i := bufs[i].(key := key, valid := false, refcnt := 1)]
    case NoBuffers => bufs
  }

  /** The code's choice is an enabled action of the coherence model. */
  lemma BgetRefines(s: State, c: nat, order: seq<nat>, key: Key, r: Bget)
    requires c < |s.calls| && s.calls[c].Idle? && key != BootKey
    requires !r.NoBuffers? && Chosen(s.bufs, order, key, r)
    ensures var a := if r.Found? then Hit(c, r.i, key) else Recycle(c, r.i, key);
            Step(s, a).Live? && Step(s, a).s.bufs == AfterBget(s.bufs, key, r)
  {}

  /** brelse: the sleep-lock and one reference are given up. */
  function AfterRelease(bufs: seq<Buf>, b: nat): (t: seq<Buf>)
    requires b < |bufs| && bufs[b].refcnt > 0
  {
    bufs[b := bufs[b].(owner := -1, refcnt := bufs[b].refcnt - 1)]
  }

  function AfterPin(bufs: seq<Buf>, b: nat): (t: seq<Buf>)
    requires b < |bufs|
  {
    bufs[b := bufs[b].(pinned := true, refcnt := bufs[b].refcnt + 1)]
  }

  function AfterUnpin(bufs: seq<Buf>, b: nat): (t: seq<Buf>)
    requires b < |bufs| && bufs[b].refcnt > 0
  {
    bufs[b := bufs[b].(pinned := false, refcnt := bufs[b].refcnt - 1)]
  }

  /** brelse by a call that bread has answered is two actions of the coherence
      model, and does not panic. */
  lemma ReleaseRefines(s: State, c: nat)
    requires Inv(s) && c < |s.calls| && s.calls[c].Ready? && !s.calls[c].mode.Dirty?
    ensures var i := s.calls[c].i;
            && i < |s.bufs| && s.bufs[i].owner == c && s.bufs[i].refcnt > 0 && Step(s, ReleaseSleep(c)).Live?
            && Step(Step(s, ReleaseSleep(c)).s, Decref(c)).Live?
            && Step(Step(s, ReleaseSleep(c)).s, Decref(c)).s.bufs == AfterRelease(s.bufs, i)
  {
    RefsPositive(s.calls, c, s.calls[c].i);
    assert AttachedAt(s, c);
    hide Inv, Refs;
  }

  /** bpin, called where log_write lists a new block, is its action there. */
  lemma PinRefines(s: State, c: nat)
    requires Inv(s) && c < |s.calls| && s.calls[c].Ready?
    ensures var i := s.calls[c].i;
            && i < |s.bufs| && Step(s, LogWrite(c)).Live?
            && Step(s, LogWrite(c)).s.bufs == if s.bufs[i].pinned then s.bufs else AfterPin(s.bufs, i)
  {
    assert AttachedAt(s, c);
    hide Inv;
  }

  /** bunpin of a block just installed. */
  lemma UnpinRefines(s: State, c: nat)
    requires Inv(s) && c < |s.calls| && s.calls[c].Ready? && s.calls[c].mode.Synced?
    requires s.calls[c].i < |s.bufs| && s.bufs[s.calls[c].i].pinned
    ensures var i := s.calls[c].i;
            s.bufs[i].refcnt > 0 && Step(s, Unpin(c)).Live? && Step(s, Unpin(c)).s.bufs == AfterUnpin(s.bufs, i)
  {
    assert AttachedAt(s, c);
    hide Attached, Unique, Owned, Lagging, Uncached, Stored, Refs;
  }

  class Cache {
    var next: array<nat>
    var prev: array<nat>
    var bufs: array<Buf>
    ghost var order: seq<nat>    // head.next .. head.prev, most recent first
    ghost var clock: nat
    ghost var unused: seq<nat>   // when each buffer last lost its last user, or 0

    /** All three tables exist and the ring threads every buffer once. */
    ghost predicate Valid()
      reads this, next, prev
    {
      && bufs.Length == NBUF && next.Length == prev.Length == NBUF + 1 && next != prev
      && Linked(next[..], prev[..], order, NBUF)
      && (forall i :: 0 <= i < NBUF ==> i in order)
      && |unused| == NBUF && ByAge(order, unused, clock)
    }

    /** binit */
    constructor ()
      ensures Valid() && fresh(next) && fresh(prev) && fresh(bufs)
      ensures forall i :: 0 <= i < NBUF ==> bufs[i] == Buf(BootKey, false, 0, ZeroBlock(), -1, false)
    {
      next := new nat[NBUF + 1](_ => NBUF);
      prev := new nat[NBUF + 1](_ => NBUF);
      bufs := new Buf[NBUF](_ => Buf(BootKey, false, 0, ZeroBlock(), -1, false));
      order, clock, unused := [], 0, seq(NBUF, _ => 0);
      new;
      hide ByAge, Pos;
      for b: nat := 0 to NBUF
        invariant next.Length == prev.Length == NBUF + 1 && next != prev && fresh(next) && fresh(prev)
        invariant Linked(next[..], prev[..], order, NBUF)
        invariant forall i :: i in order <==> 0 <= i < b
        invariant clock == 0 && unused == seq(NBUF, _ => 0)
        invariant bufs.Length == NBUF && fresh(bufs)
        invariant forall i :: 0 <= i < NBUF ==> bufs[i] == Buf(BootKey, false, 0, ZeroBlock(), -1, false)
      {
        PushFront(next[..], prev[..], order, NBUF, b);
        ghost var nx: seq<nat>, pv: seq<nat>, x: nat := next[..], prev[..], b;
        next[b] := next[NBUF];
        prev[b] := NBUF;
        prev[next[NBUF]] := b;
        next[NBUF] := b;
        order := [b] + order;
        assert next[..] == nx[b := nx[NBUF]][NBUF := x];
        assert prev[..] == pv[b := NBUF][nx[NBUF] := x];
      }
    }

    /** bget under bcache.lock. */
    method Lookup(key: Key) returns (r: Bget)
      requires Valid()
      modifies bufs
      ensures Valid() && Chosen(old(bufs[..]), order, key, r)
      ensures bufs[..] == AfterBget(old(bufs[..]), key, r)
      ensures r.Recycled? ==> forall j :: 0 <= j < NBUF && old(bufs[j].refcnt) == 0 ==> unused[r.i] <= unused[j]
    {
      hide ByAge;
      var b := next[NBUF];
      ghost var k := 0;
      assert Pos(order, NBUF, -1) == NBUF;
      while b != NBUF
        invariant 0 <= k <= |order| && b == Pos(order, NBUF, k)
        invariant forall j :: 0 <= j < k ==> bufs[order[j]].key != key
        decreases |order| - k
      {
        if bufs[b].key == key {
          bufs[b] := bufs[b].(refcnt := bufs[b].refcnt + 1);
          return Found(b);
        }
        b := next[b];
        k := k + 1;
      }
      assert key !in Keys(bufs[..]) by {
        forall i | 0 <= i < NBUF ensures bufs[i].key != key {
          assert i in order;
          var j :| 0 <= j < |order| && order[j] == i;
        }
      }
      b := prev[NBUF];
      k := |order| - 1;
      assert Pos(order, NBUF, |order|) == NBUF;
      while b != NBUF
        invariant -1 <= k < |order| && b == Pos(order, NBUF, k)
        invariant forall j :: k < j < |order| ==> bufs[order[j]].refcnt != 0
        decreases k
      {
        if bufs[b].refcnt == 0 {
          OldestFirst(order, unused, clock, bufs[..], k);
          bufs[b] := bufs[b].(key := key, valid := false, refcnt := 1);
          return Recycled(b);
        }
        b := prev[b];
        k := k - 1;
      }
      forall i | 0 <= i < NBUF ensures bufs[i].refcnt != 0 {
        assert i in order;
        var j :| 0 <= j < |order| && order[j] == i;
      }
      return NoBuffers;
    }

    /** brelse by caller `me`: give up the sleep-lock and a reference; an unused
        buffer becomes the most recently used. */
    method Release(b: nat, me: nat) returns (panic: bool)
      requires Valid() && b < NBUF && bufs[b].refcnt > 0
      modifies bufs, next, prev, `order, `clock, `unused
      ensures Valid() && panic == (old(bufs[b]).owner != me)
      ensures clock >= old(clock)
      ensures unused == if !panic && bufs[b].refcnt == 0 then old(unused)[b := old(clock) + 1] else old(unused)
      ensures bufs[..] == if panic then old(bufs[..]) else AfterRelease(old(bufs[..]), b)
      ensures panic || bufs[b].refcnt > 0 ==> order == old(order)
      ensures !panic && bufs[b].refcnt == 0 ==>
                exists k :: 0 <= k < |old(order)| && old(order)[k] == b && order == [b] + Without(old(order), k)
    {
      if bufs[b].owner != me { return true; }
      bufs[b] := bufs[b].(owner := -1);
      bufs[b] := bufs[b].(refcnt := bufs[b].refcnt - 1);
      panic := false;
      if bufs[b].refcnt == 0 {
        assert b in order;
        ghost var k :| 0 <= k < |order| && order[k] == b;
        MoveToFront(b, k);
      }
    }

    /** brelse's relinking of an unused buffer. */
    method MoveToFront(b: nat, ghost k: nat)
      requires Valid() && b < NBUF && k < |order| && order[k] == b
      modifies next, prev, `order, `clock, `unused
      ensures Valid() && order == [b] + Without(old(order), k)
      ensures clock == old(clock) + 1 && unused == old(unused)[b := clock]
    {
      ghost var rest := Without(order, k);
      Unlink(next[..], prev[..], order, NBUF, k);
      forall i | 0 <= i < NBUF ensures i in [b] + rest {
        assert i in order;
      }
      YoungestFirst(order, unused, clock, b, k);
      hide Linked, Without, ByAge;
      ghost var nx, pv := next[..], prev[..];
      var p, q := prev[b], next[b];
      prev[q] := p;
      next[p] := q;
      assert next[..] == nx[pv[b] := nx[b]] && prev[..] == pv[nx[b] := pv[b]];
      PushFront(next[..], prev[..], rest, NBUF, b);
      nx, pv := next[..], prev[..];
      next[b] := next[NBUF];
      prev[b] := NBUF;
      prev[next[NBUF]] := b;
      next[NBUF] := b;
      assert next[..] == nx[b := nx[NBUF]][NBUF := b] && prev[..] == pv[b := NBUF][nx[NBUF] := b];
      order, clock := [b] + rest, clock + 1;
      unused := unused[b := clock];
    }

    /** bpin and bunpin under bcache.lock; `pinned` notes the log's reference. */
    method Pin(b: nat)
      requires Valid() && b < NBUF
      modifies bufs
      ensures Valid() && bufs[..] == AfterPin(old(bufs[..]), b)
    {
      bufs[b] := bufs[b].(pinned := true, refcnt := bufs[b].refcnt + 1);
    }

    method Unpin(b: nat)
      requires Valid() && b < NBUF && bufs[b].refcnt > 0
      modifies bufs
      ensures Valid() && bufs[..] == AfterUnpin(old(bufs[..]), b)
    {
      bufs[b] := bufs[b].(pinned := false, refcnt := bufs[b].refcnt - 1);
    }
  }
}
