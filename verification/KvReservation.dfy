/** What a reservation that runs out of blocks leaves behind. */
module KvReservation {
  import opened Common
  import opened KvPool
  import opened KvCache
  import opened KvManager
  import opened KvAdmission

  /** Every block has been used before, and no free one is cached. */
  ghost predicate Settled(p: Pool) {
    |p.blocks| == p.capacity && p.free.lru == map[]
  }

  // ----- taking everything -----

  /** Asking for more than there is takes all there is. */
  lemma {:induction false} TakeStuck(c: Cache, held: multiset<Ref>, free: nat, n: nat)
    requires Consistent(c, held) && free == NumFree(c.gpu) && n > free
    ensures TakeMany(c, held, GPU, n) == TakeMany(c, held, GPU, free).(ok := false) && NumFree(TakeMany(c, held, GPU, free).cache.gpu) == 0
    decreases n
  {
    hide Consistent, Allocate, NumFree;
    TakeSucceeds(c, held, GPU, free);
    if n > free + 1 { TakeStuck(c, held, free, n - 1); }
  }

  lemma {:induction false} NothingFree(p: Pool)
    requires PoolOk(p) && NumFree(p) == 0
    ensures Settled(p) && p.free.fifo == []
  {
    assert |p.blocks| <= p.capacity;
  }

  lemma {:induction false} ReleaseSettled(c: Cache, held: multiset<Ref>, refs: seq<Ref>)
    requires Consistent(c, held) && multiset(refs) <= held && Settled(c.gpu)
    requires forall k :: 0 <= k < |refs| ==> refs[k].device.GPU? && !BlockAt(c, refs[k]).cached
    ensures Settled(ReleaseMany(c, held, refs).gpu)
    decreases |refs|
  {
    hide Consistent;
    if refs != [] {
      ReleaseOne(c, held, refs, refs[0], refs[1..]);
      ReleaseOk(c, held, refs[0]);
      var e := Release(c, refs[0]);
      OneSettled(c, refs[0], e);
      forall k | 0 <= k < |refs[1..]| ensures refs[1..][k].device.GPU? && !BlockAt(e, refs[1..][k]).cached {
        assert refs[1..][k] == refs[k + 1];
      }
      ReleaseSettled(e, held - multiset{refs[0]}, refs[1..]);
    }
  }

  lemma {:induction false} OneSettled(c: Cache, r: Ref, e: Cache)
    requires Exists(c, r) && Refs(c, r) > 0 && e == Release(c, r) && r.device.GPU? && !BlockAt(c, r).cached && Settled(c.gpu)
    ensures Settled(e.gpu) && !BlockAt(e, r).cached
  {
  }

  // ----- giving everything back -----

  const LENT := FRESH.(refs := 1)

  /** The queued blocks from place `i` up to place `j` are in use. */
  function LentBlocks(blocks: seq<Block>, fifo: seq<nat>, i: nat, j: nat): (lent: seq<Block>)
    requires j <= |fifo| && forall k :: 0 <= k < |fifo| ==> fifo[k] < |blocks|
    ensures |lent| == |blocks|
  {
    if j <= i then blocks else LentBlocks(blocks, fifo, i, j - 1)[fifo[j - 1] := LENT]
  }

  lemma {:induction false} LentAt(blocks: seq<Block>, fifo: seq<nat>, i: nat, j: nat, b: nat)
    requires i <= j <= |fifo| && (forall k :: 0 <= k < |fifo| ==> fifo[k] < |blocks|) && b < |blocks|
    ensures LentBlocks(blocks, fifo, i, j)[b] == if b in fifo[i..j] then LENT else blocks[b]
    decreases j
  {
    if i < j {
      LentAt(blocks, fifo, i, j - 1, b);
      assert fifo[i..j] == fifo[i..j - 1] + [fifo[j - 1]];
    }
  }

  ghost predicate Lendable(p: Pool) {
    PoolOk(p) && Settled(p)
  }

  lemma {:induction false} QueuedFresh(p: Pool, k: nat)
    requires PoolOk(p) && k < |p.free.fifo|
    ensures p.free.fifo[k] < |p.blocks| && p.blocks[p.free.fifo[k]] == FRESH
  {
    var b := p.free.fifo[k];
    assert b in p.free.fifo;
    assert BlockOk(p, b);
  }

  /** The pool with the blocks from `i` to `j` in use and those from `lo` to `hi` queued. */
  function Partly(p: Pool, i: nat, j: nat, lo: nat, hi: nat): Pool
    requires j <= |p.free.fifo| && lo <= hi <= |p.free.fifo| && forall k :: 0 <= k < |p.free.fifo| ==> p.free.fifo[k] < |p.blocks|
  {
    p.(blocks := LentBlocks(p.blocks, p.free.fifo, i, j), free := p.free.(fifo := p.free.fifo[lo..hi]))
  }

  lemma {:induction false} QueueInside(p: Pool)
    requires PoolOk(p)
    ensures forall k :: 0 <= k < |p.free.fifo| ==> p.free.fifo[k] < |p.blocks|
  {
    forall k | 0 <= k < |p.free.fifo| ensures p.free.fifo[k] < |p.blocks| { QueuedFresh(p, k); }
  }

  lemma {:induction false} TakeFront(p: Pool, k: nat, q: Pool)
    requires Lendable(p) && k < |p.free.fifo| && (forall i :: 0 <= i < |p.free.fifo| ==> p.free.fifo[i] < |p.blocks|)
    requires q == Partly(p, 0, k, k, |p.free.fifo|) && PoolOk(q) && NumFree(q) > 0
    ensures Taken(q) == (Partly(p, 0, k + 1, k + 1, |p.free.fifo|), p.free.fifo[k]) && !q.blocks[p.free.fifo[k]].cached
  {
    var fifo := p.free.fifo;
    QueuedFresh(p, k);
    LentAt(p.blocks, fifo, 0, k, fifo[k]);
    assert fifo[k] !in fifo[0..k] by { assert NoRepeats(fifo); }
    assert fifo[k..][1..] == fifo[k + 1..];
    assert fifo[k..|fifo|][0] == fifo[k] && fifo[k..|fifo|][1..] == fifo[k + 1..|fifo|];
    assert InUse(FRESH) == LENT;
  }

  lemma {:induction false} ReturnNext(p: Pool, k: nat, q: Pool)
    requires Lendable(p) && k < |p.free.fifo| && (forall i :: 0 <= i < |p.free.fifo| ==> p.free.fifo[i] < |p.blocks|)
    requires q == Partly(p, k, |p.free.fifo|, 0, k)
    ensures q.blocks[p.free.fifo[k]].refs == 1 && Released(q, p.free.fifo[k], true) == Partly(p, k + 1, |p.free.fifo|, 0, k + 1)
  {
    var fifo := p.free.fifo;
    var b, n, r := fifo[k], |fifo|, Partly(p, k + 1, |fifo|, 0, k + 1);
    LentAt(p.blocks, fifo, k, n, b);
    assert b in fifo[k..n] by { assert fifo[k..n][0] == b; }
    WithoutAbsent(fifo[0..k], b);
    assert fifo[0..k + 1] == fifo[0..k] + [b];
    ReturnBlocks(p, k);
    assert p.free.lru - {b} == p.free.lru;
    assert Cleared(LENT.(refs := 0)) == FRESH;
  }

  lemma {:induction false} ReturnBlocks(p: Pool, k: nat)
    requires Lendable(p) && k < |p.free.fifo| && (forall i :: 0 <= i < |p.free.fifo| ==> p.free.fifo[i] < |p.blocks|)
    ensures LentBlocks(p.blocks, p.free.fifo, k, |p.free.fifo|)[p.free.fifo[k] := FRESH] ==
            LentBlocks(p.blocks, p.free.fifo, k + 1, |p.free.fifo|)
  {
    hide PoolOk;
    var fifo, n := p.free.fifo, |p.free.fifo|;
    var left, right := LentBlocks(p.blocks, fifo, k, n)[fifo[k] := FRESH], LentBlocks(p.blocks, fifo, k + 1, n);
    QueuedFresh(p, k);
    NotAgain(p, k);
    assert fifo[k..n] == [fifo[k]] + fifo[k + 1..n];
    forall b | 0 <= b < |p.blocks| ensures left[b] == right[b] {
      LentAt(p.blocks, fifo, k, n, b);
      LentAt(p.blocks, fifo, k + 1, n, b);
    }
  }

  lemma {:induction false} NotAgain(p: Pool, k: nat)
    requires PoolOk(p) && k < |p.free.fifo|
    ensures p.free.fifo[k] !in p.free.fifo[k + 1..]
  {
    assert NoRepeats(p.free.fifo);
  }

  function GpuRefs(fifo: seq<nat>, n: nat): (refs: seq<Ref>)
    requires n <= |fifo|
    ensures |refs| == n
  {
    if n == 0 then [] else GpuRefs(fifo, n - 1) + [Ref(GPU, fifo[n - 1])]
  }

  lemma {:induction false} RefAt(fifo: seq<nat>, n: nat, k: nat)
    requires k < n <= |fifo|
    ensures GpuRefs(fifo, n)[k] == Ref(GPU, fifo[k])
    decreases n
  {
    if k < n - 1 { RefAt(fifo, n - 1, k); }
  }

  lemma {:induction false} TakeQueued(c: Cache, held: multiset<Ref>, k: nat)
    requires Consistent(c, held) && Settled(c.gpu) && k <= |c.gpu.free.fifo|
    requires forall i :: 0 <= i < |c.gpu.free.fifo| ==> c.gpu.free.fifo[i] < |c.gpu.blocks|
    ensures TakeMany(c, held, GPU, k) ==
            Taking(c.(gpu := Partly(c.gpu, 0, k, k, |c.gpu.free.fifo|)), GpuRefs(c.gpu.free.fifo, k), true)
    decreases k
  {
    hide Consistent, Taken, Settled;
    ConsistentPool(c, held, GPU);
    var n := |c.gpu.free.fifo|;
    if k == 0 {
      TakeNone(c, held, GPU);
      assert c.gpu.free.fifo[0..n] == c.gpu.free.fifo;
    } else {
      TakeQueued(c, held, k - 1);
      var t := TakeMany(c, held, GPU, k - 1);
      ConsistentPool(t.cache, held + multiset(t.refs), GPU);
      SomeFree(c.gpu, k - 1, t.cache.gpu);
      TakeFront(c.gpu, k - 1, t.cache.gpu);
    }
  }

  lemma {:induction false} SomeFree(p: Pool, k: nat, q: Pool)
    requires PoolOk(p) && Settled(p) && k < |p.free.fifo| && (forall i :: 0 <= i < |p.free.fifo| ==> p.free.fifo[i] < |p.blocks|)
    requires q == Partly(p, 0, k, k, |p.free.fifo|)
    ensures NumFree(q) > 0
  {
    hide PoolOk;
  }

  lemma {:induction false} ReturnQueued(c: Cache, d: Cache, held: multiset<Ref>, k: nat, refs: seq<Ref>)
    requires PoolOk(c.gpu) && Settled(c.gpu) && k <= |c.gpu.free.fifo|
    requires forall i :: 0 <= i < |c.gpu.free.fifo| ==> c.gpu.free.fifo[i] < |c.gpu.blocks|
    requires Consistent(d, held) && d == c.(gpu := Partly(c.gpu, k, |c.gpu.free.fifo|, 0, k))
    requires refs == GpuRefs(c.gpu.free.fifo, |c.gpu.free.fifo|)[k..] && multiset(refs) <= held
    ensures ReleaseMany(d, held, refs) == c
    decreases |refs|
  {
    hide Consistent, PoolOk, Settled, Released;
    var fifo, n := c.gpu.free.fifo, |c.gpu.free.fifo|;
    if k == n {
      assert fifo[0..n] == fifo;
    } else {
      RefAt(fifo, n, k);
      ReleaseOne(d, held, refs, refs[0], refs[1..]);
      ReturnNext(c.gpu, k, d.gpu);
      ReturnQueued(c, Release(d, refs[0]), held - multiset{refs[0]}, k + 1, refs[1..]);
    }
  }

  // ----- a failed reservation -----

  /** A reservation fails exactly when fewer blocks are free. */
  lemma {:induction false} ReserveFails(m: Manager, n: int)
    requires Inv(m)
    ensures ReserveOp(m, n).error == if n > NumFree(m.cache.gpu) && n > 0 then Some(OutOfBlocksError) else None
  {
    hide Consistent, TakeMany, NumFree;
    ConsistentPool(m.cache, Held(m), GPU);
    FreeCount(m.cache.gpu);
    if n > NumFree(m.cache.gpu) && n > 0 {
      TakeStuck(m.cache, Held(m), NumFree(m.cache.gpu), n);
    } else {
      TakeSucceeds(m.cache, Held(m), GPU, Max(0, n));
    }
  }

  lemma {:induction false} FreeCount(p: Pool)
    requires PoolOk(p)
    ensures NumFree(p) >= 0
  {
    assert |p.blocks| <= p.capacity;
  }

  lemma {:induction false} FailureSettles(m: Manager, n: int)
    requires Inv(m) && n > NumFree(m.cache.gpu) && n > 0
    ensures Settled(ReserveOp(m, n).after.cache.gpu)
  {
    hide Consistent, TakeMany, ReleaseMany, NumFree, Settled;
    var held, free := Held(m), NumFree(m.cache.gpu);
    ConsistentPool(m.cache, held, GPU);
    FreeCount(m.cache.gpu);
    TakeStuck(m.cache, held, free, n);
    var t := TakeMany(m.cache, held, GPU, n);
    FreshBlocks(m.cache, held, GPU, n);
    OnGpu(m.cache, held, n);
    ConsistentPool(t.cache, held + multiset(t.refs), GPU);
    NothingFree(t.cache.gpu);
    forall k | 0 <= k < |t.refs| ensures t.refs[k].device.GPU? && !BlockAt(t.cache, t.refs[k]).cached {
      assert FreshAt(t.cache, held, t.refs, k);
    }
    ReleaseSettled(t.cache, held + multiset(t.refs), t.refs);
  }

  lemma {:induction false} OnGpu(c: Cache, held: multiset<Ref>, n: nat)
    requires Consistent(c, held)
    ensures forall k :: 0 <= k < |TakeMany(c, held, GPU, n).refs| ==> TakeMany(c, held, GPU, n).refs[k].device.GPU?
    decreases n
  {
    hide Consistent, NumFree, Taken;
    if n > 0 {
      OnGpu(c, held, n - 1);
      var t := TakeMany(c, held, GPU, n - 1);
      ConsistentPool(t.cache, held + multiset(t.refs), GPU);
    }
  }

  lemma {:induction false} SettledUndoes(m: Manager, n: int)
    requires Inv(m) && n > NumFree(m.cache.gpu) && n > 0 && Settled(m.cache.gpu)
    ensures ReserveOp(m, n).after == m
  {
    hide Consistent, TakeMany, ReleaseMany, PoolOk;
    var c, held, free := m.cache, Held(m), NumFree(m.cache.gpu);
    ConsistentPool(c, held, GPU);
    QueueInside(c.gpu);
    FreeCount(c.gpu);
    TakeStuck(c, held, free, n);
    TakeQueued(c, held, |c.gpu.free.fifo|);
    var t := TakeMany(c, held, GPU, n);
    var k := |c.gpu.free.fifo|;
    assert t.refs == GpuRefs(c.gpu.free.fifo, k)[0..];
    assert Partly(c.gpu, 0, k, k, k) == Partly(c.gpu, 0, k, 0, 0) by { assert c.gpu.free.fifo[k..k] == c.gpu.free.fifo[0..0]; }
    ReturnQueued(c, t.cache, held + multiset(t.refs), 0, t.refs);
  }

  /** A reservation that runs out of blocks leaves the manager as it was exactly when the pool is settled. */
  lemma {:induction false} FailureUndone(m: Manager, n: int)
    requires Inv(m) && n > NumFree(m.cache.gpu) && n > 0
    ensures ReserveOp(m, n).after == m <==> Settled(m.cache.gpu)
  {
    hide Inv, ReserveOp, Settled, NumFree;
    FailureSettles(m, n);
    if Settled(m.cache.gpu) { SettledUndoes(m, n); }
  }
}
