/** The blocks of one device: reference counts, cache metadata and the queue of free blocks. */
module KvPool {
  import opened Common
  import opened PrefixKeys

  datatype Block = Block(refs: nat, hash: Option<Key>, full: bool, cached: bool, stamp: nat)

  const FRESH := Block(0, None, false, false, 0)

  /** `clear_cache_metadata`. */
  function Cleared(b: Block): Block {
    b.(hash := None, full := false, cached := false, stamp := 0)
  }

  predicate Clean(b: Block) {
    b.hash.None? && !b.full && !b.cached && b.stamp == 0
  }

  /**
    Uncached free blocks in the order they were freed, and cached ones with their access stamp and
    the position of their insertion.
   */
  datatype FreeQueue = FreeQueue(fifo: seq<nat>, lru: map<nat, (nat, nat)>, tick: nat)

  /** `blocks` are the materialised ones; the numbers from there up to the capacity were never used. */
  datatype Pool = Pool(capacity: nat, blocks: seq<Block>, free: FreeQueue)

  function NewPool(capacity: nat): Pool {
    Pool(capacity, [], FreeQueue([], map[], 1))
  }

  function NumFree(p: Pool): int {
    p.capacity - |p.blocks| + |p.free.fifo| + |p.free.lru|
  }

  // ----- queue -----

  predicate Older(a: (nat, nat), b: (nat, nat)) {
    a.0 < b.0 || (a.0 == b.0 && a.1 <= b.1)
  }

  /** `b` was touched least recently, insertion order breaking ties. */
  ghost predicate IsOldest(lru: map<nat, (nat, nat)>, b: nat) {
    b in lru && forall c :: c in lru ==> Older(lru[b], lru[c])
  }

  lemma {:induction false} OldestExists(lru: map<nat, (nat, nat)>)
    requires |lru| > 0
    ensures exists b :: IsOldest(lru, b)
    decreases |lru|
  {
    var c :| c in lru;
    var rest := lru - {c};
    assert lru == rest[c := lru[c]];
    if |rest| == 0 {
      assert IsOldest(lru, c);
    } else {
      OldestExists(rest);
      var d :| IsOldest(rest, d);
      assert IsOldest(lru, if Older(lru[c], lru[d]) then c else d);
    }
  }

  ghost predicate SameTick(lru: map<nat, (nat, nat)>, b: nat, c: nat) {
    b in lru && c in lru && lru[b].1 == lru[c].1
  }

  /** No two members were inserted at the same position. */
  ghost predicate DistinctTicks(q: FreeQueue) {
    && (forall b :: b in q.lru ==> q.lru[b].1 < q.tick)
    && (forall b, c :: SameTick(q.lru, b, c) ==> b == c)
  }

  lemma {:induction false} OldestUnique(q: FreeQueue, b: nat, c: nat)
    requires DistinctTicks(q) && IsOldest(q.lru, b) && IsOldest(q.lru, c)
    ensures b == c
  {
    assert SameTick(q.lru, b, c);
  }

  lemma {:induction false} FewerTicks(q: FreeQueue, r: FreeQueue, b: nat)
    requires DistinctTicks(q) && r.lru == q.lru - {b} && r.tick == q.tick
    ensures DistinctTicks(r)
  {
    forall c, d | SameTick(r.lru, c, d) ensures c == d { assert SameTick(q.lru, c, d); }
  }

  lemma {:induction false} AnotherTick(q: FreeQueue, r: FreeQueue, b: nat, stamp: nat)
    requires DistinctTicks(q) && r.lru == q.lru[b := (stamp, q.tick)] && r.tick == q.tick + 1
    ensures DistinctTicks(r)
  {
    forall c, d | SameTick(r.lru, c, d) ensures c == d { assert c != b && d != b ==> SameTick(q.lru, c, d); }
  }

  ghost function Oldest(lru: map<nat, (nat, nat)>): (b: nat)
    requires |lru| > 0
    ensures IsOldest(lru, b)
  {
    OldestExists(lru);
    var b :| IsOldest(lru, b);
    b
  }

  function Remove(q: FreeQueue, b: nat): FreeQueue {
    q.(fifo := Without(q.fifo, b), lru := q.lru - {b})
  }

  // ----- what one operation does to a pool -----

  /** The longest queued uncached block, else the least recently touched cached one. */
  ghost function PopQueue(q: FreeQueue): (FreeQueue, nat)
    requires |q.fifo| + |q.lru| > 0
  {
    if q.fifo != [] then (q.(fifo := q.fifo[1..]), q.fifo[0])
    else
      var b := Oldest(q.lru);
      (q.(lru := q.lru - {b}), b)
  }

  /** A free block: a never used one, else the longest freed uncached one, else the least recently touched cached one. */
  ghost function PopFree(p: Pool): (Pool, nat)
    requires |p.blocks| <= p.capacity && NumFree(p) > 0
  {
    if |p.blocks| < p.capacity then (p.(blocks := p.blocks + [FRESH]), |p.blocks|)
    else
      var (q, b) := PopQueue(p.free);
      (p.(free := q), b)
  }

  function Put(p: Pool, b: nat, block: Block): Pool
    requires b < |p.blocks|
  {
    p.(blocks := p.blocks[b := block])
  }

  function Appended(q: FreeQueue, b: nat): FreeQueue {
    Remove(q, b).(fifo := Without(q.fifo, b) + [b])
  }

  function AppendedLru(q: FreeQueue, b: nat, stamp: nat): FreeQueue {
    FreeQueue(Without(q.fifo, b), q.lru[b := (stamp, q.tick)], q.tick + 1)
  }

  function AppendFifo(p: Pool, b: nat): Pool {
    p.(free := Appended(p.free, b))
  }

  function AppendLru(p: Pool, b: nat, stamp: nat): Pool {
    p.(free := AppendedLru(p.free, b, stamp))
  }

  // ----- invariant -----

  /** Blocks in use among the first `n`. */
  function Busy(blocks: seq<Block>, n: nat): nat
    requires n <= |blocks|
  {
    if n == 0 then 0 else Busy(blocks, n - 1) + (if blocks[n - 1].refs > 0 then 1 else 0)
  }

  ghost predicate BlockOk(p: Pool, b: nat) {
    && b < |p.blocks|
    && (p.blocks[b].refs == 0 <==> b in p.free.fifo || b in p.free.lru)
    && (b in p.free.fifo ==> Clean(p.blocks[b]))
    && (b in p.free.lru ==> p.blocks[b].cached && p.free.lru[b].0 == p.blocks[b].stamp)
    && (p.blocks[b].cached ==> p.blocks[b].hash.Some? && p.blocks[b].full)
  }

  /** Exactly the blocks nobody references are queued, each once; cached ones in the LRU part, clean ones in the FIFO part. */
  ghost predicate PoolOk(p: Pool) {
    && |p.blocks| <= p.capacity
    && (forall b :: 0 <= b < |p.blocks| ==> BlockOk(p, b))
    && (forall b :: b in p.free.fifo ==> b < |p.blocks|)
    && (forall b :: b in p.free.lru ==> b < |p.blocks|)
    && NoRepeats(p.free.fifo)
    && DistinctTicks(p.free)
    && Busy(p.blocks, |p.blocks|) + |p.free.fifo| + |p.free.lru| == |p.blocks|
  }

  lemma {:induction false} BusyUpdate(blocks: seq<Block>, b: nat, block: Block, n: nat, after: seq<Block>)
    requires b < |blocks| && n <= |blocks| && after == blocks[b := block]
    ensures Busy(after, n) ==
            Busy(blocks, n) + (if b < n then (if block.refs > 0 then 1 else 0) - (if blocks[b].refs > 0 then 1 else 0) else 0)
    decreases n
  {
    if n > 0 { BusyUpdate(blocks, b, block, n - 1, after); }
  }

  lemma {:induction false} BusyPrefix(blocks: seq<Block>, after: seq<Block>, n: nat)
    requires n <= |blocks| <= |after| && after[..|blocks|] == blocks
    ensures Busy(after, n) == Busy(blocks, n)
    decreases n
  {
    if n > 0 {
      assert after[n - 1] == blocks[n - 1];
      BusyPrefix(blocks, after, n - 1);
    }
  }

  /** Free and referenced blocks always add up to the capacity. */
  lemma {:induction false} Conservation(p: Pool)
    requires PoolOk(p)
    ensures NumFree(p) + Busy(p.blocks, |p.blocks|) == p.capacity
  {
  }

  // ----- handing out -----

  function InUse(b: Block): Block {
    (if b.cached then Cleared(b) else b).(refs := b.refs + 1)
  }

  /** Hands out a block: it loses its cache metadata and gets its first reference. */
  ghost function Taken(p: Pool): (Pool, nat)
    requires PoolOk(p) && NumFree(p) > 0
  {
    PopFreeOk(p);
    var (q, b) := PopFree(p);
    (Put(q, b, InUse(q.blocks[b])), b)
  }

  lemma {:induction false} PoolSize(p: Pool)
    requires PoolOk(p)
    ensures |p.blocks| <= p.capacity
  {
  }

  lemma {:induction false} PopFreeOk(p: Pool)
    requires PoolOk(p) && NumFree(p) > 0
    ensures PopFree(p).1 < |PopFree(p).0.blocks|
  {
    if |p.blocks| == p.capacity {
      if p.free.fifo != [] {
        assert p.free.fifo[0] in p.free.fifo;
      } else {
        assert Oldest(p.free.lru) in p.free.lru;
      }
    }
  }

  /** What is known of a pool `q` made from `p` by changing only block `b`. */
  ghost predicate OnlyBlock(p: Pool, q: Pool, b: nat) {
    && p.capacity == q.capacity && |p.blocks| <= |q.blocks| && b < |q.blocks|
    && (forall c :: 0 <= c < |p.blocks| && c != b ==> q.blocks[c] == p.blocks[c])
    && |q.blocks| <= |p.blocks| + 1 && (|q.blocks| > |p.blocks| ==> b == |p.blocks|)
  }

  lemma {:induction false} TakenFresh(p: Pool, q: Pool)
    requires PoolOk(p) && |p.blocks| < p.capacity && q == p.(blocks := p.blocks + [FRESH.(refs := 1)])
    ensures PoolOk(q)
  {
    BusyPrefix(p.blocks, q.blocks, |p.blocks|);
    forall b | 0 <= b < |q.blocks| ensures BlockOk(q, b) {
      assert b < |p.blocks| ==> BlockOk(p, b);
    }
  }

  lemma {:induction false} TakenFifo(p: Pool, q: Pool, b: nat)
    requires PoolOk(p) && p.free.fifo != [] && b == p.free.fifo[0]
    requires b < |p.blocks| && q == Put(p.(free := p.free.(fifo := p.free.fifo[1..])), b, p.blocks[b].(refs := p.blocks[b].refs + 1))
    ensures PoolOk(q) && p.blocks[b].refs == 0 && Clean(p.blocks[b])
  {
    assert BlockOk(p, b);
    BusyUpdate(p.blocks, b, q.blocks[b], |p.blocks|, q.blocks);
    forall c | 0 <= c < |q.blocks| ensures BlockOk(q, c) {
      assert BlockOk(p, c);
      assert c in p.free.fifo <==> c == b || c in q.free.fifo;
    }
    assert forall c :: c in q.free.fifo ==> c in p.free.fifo;
  }

  lemma {:induction false} TakenLru(p: Pool, q: Pool, b: nat)
    requires PoolOk(p) && b in p.free.lru && b < |p.blocks|
    requires q == Put(p.(free := p.free.(lru := p.free.lru - {b})), b, Cleared(p.blocks[b]).(refs := p.blocks[b].refs + 1))
    ensures PoolOk(q) && p.blocks[b].refs == 0 && p.blocks[b].cached
  {
    assert BlockOk(p, b);
    BusyUpdate(p.blocks, b, q.blocks[b], |p.blocks|, q.blocks);
    assert p.free.lru == q.free.lru[b := p.free.lru[b]];
    FewerTicks(p.free, q.free, b);
    forall c | 0 <= c < |q.blocks| ensures BlockOk(q, c) {
      assert BlockOk(p, c);
    }
  }

  /** The block handed out was free, nobody else's changed, and one block fewer is free. */
  lemma {:induction false} TakenOk(p: Pool)
    requires PoolOk(p) && NumFree(p) > 0
    ensures var (q, b) := Taken(p);
      && PoolOk(q) && OnlyBlock(p, q, b) && NumFree(q) == NumFree(p) - 1
      && q.blocks[b].refs == 1 && Clean(q.blocks[b])
      && (b < |p.blocks| ==> p.blocks[b].refs == 0)
  {
    var (q, b) := Taken(p);
    if |p.blocks| < p.capacity {
      assert q == p.(blocks := p.blocks + [FRESH.(refs := 1)]);
      TakenFresh(p, q);
    } else if p.free.fifo != [] {
      assert b in p.free.fifo && BlockOk(p, b);
      TakenFifo(p, q, b);
    } else {
      assert IsOldest(p.free.lru, b) && BlockOk(p, b);
      TakenLru(p, q, b);
      assert p.free.lru == q.free.lru[b := p.free.lru[b]];
    }
  }

  // ----- more references -----

  function Acquired(p: Pool, b: nat, stamp: Option<nat>): Pool
    requires b < |p.blocks|
  {
    var block := p.blocks[b];
    Put(if block.refs == 0 then p.(free := Remove(p.free, b)) else p, b,
        block.(refs := block.refs + 1, stamp := if stamp.Some? then stamp.value else block.stamp))
  }

  /** Taking `b` out of the queue, wherever it is. */
  lemma {:induction false} RemoveOk(q: FreeQueue, b: nat)
    requires NoRepeats(q.fifo) && (b in q.fifo <==> b !in q.lru)
    ensures NoRepeats(Remove(q, b).fifo)
    ensures forall c :: c in Remove(q, b).fifo <==> c in q.fifo && c != b
    ensures |Remove(q, b).fifo| + |Remove(q, b).lru| == |q.fifo| + |q.lru| - 1
  {
    WithoutDistinct(q.fifo, b);
    forall c ensures c in Remove(q, b).fifo <==> c in q.fifo && c != b { WithoutMember(q.fifo, b, c); }
    if b in q.lru { assert q.lru == (q.lru - {b})[b := q.lru[b]]; } else { assert q.lru - {b} == q.lru; }
  }

  lemma {:induction false} AcquiredFree(p: Pool, b: nat, block: Block, q: Pool)
    requires PoolOk(p) && b < |p.blocks| && p.blocks[b].refs == 0 && block.refs == 1
    requires block == p.blocks[b].(refs := 1, stamp := block.stamp) && q == Put(p.(free := Remove(p.free, b)), b, block)
    ensures PoolOk(q) && NumFree(q) == NumFree(p) - 1
  {
    assert BlockOk(p, b);
    BusyUpdate(p.blocks, b, block, |p.blocks|, q.blocks);
    RemoveOk(p.free, b);
    FewerTicks(p.free, q.free, b);
    hide Without;
    forall c | 0 <= c < |q.blocks| ensures BlockOk(q, c) { assert BlockOk(p, c); }
  }

  lemma {:induction false} AcquiredOk(p: Pool, b: nat, stamp: Option<nat>, q: Pool)
    requires PoolOk(p) && b < |p.blocks| && q == Acquired(p, b, stamp)
    ensures PoolOk(q) && OnlyBlock(p, q, b) && q.blocks[b].refs == p.blocks[b].refs + 1
    ensures NumFree(q) == NumFree(p) - (if p.blocks[b].refs == 0 then 1 else 0)
  {
    if p.blocks[b].refs == 0 {
      AcquiredFree(p, b, q.blocks[b], q);
    } else {
      assert BlockOk(p, b);
      BusyUpdate(p.blocks, b, q.blocks[b], |p.blocks|, q.blocks);
      forall c | 0 <= c < |q.blocks| ensures BlockOk(q, c) { assert BlockOk(p, c); }
    }
  }

  // ----- fewer references -----

  /** Drops one reference; the last one sends a cached block to the LRU part if `keeps`, any other to the FIFO part. */
  function Released(p: Pool, b: nat, keeps: bool): Pool
    requires b < |p.blocks| && p.blocks[b].refs > 0
  {
    var block := p.blocks[b].(refs := p.blocks[b].refs - 1);
    if block.refs > 0 then Put(p, b, block)
    else if block.cached && keeps then AppendLru(Put(p, b, block), b, block.stamp)
    else AppendFifo(Put(p, b, Cleared(block)), b)
  }

  lemma {:induction false} ReleasedLast(p: Pool, b: nat, block: Block, q: Pool, stamped: bool)
    requires PoolOk(p) && b < |p.blocks| && p.blocks[b].refs == 1 && block.refs == 0
    requires if stamped then block.cached && block.hash.Some? && block.full else Clean(block)
    requires q == if stamped then AppendLru(Put(p, b, block), b, block.stamp) else AppendFifo(Put(p, b, block), b)
    ensures PoolOk(q) && NumFree(q) == NumFree(p) + 1
  {
    assert BlockOk(p, b);
    BusyUpdate(p.blocks, b, block, |p.blocks|, q.blocks);
    WithoutAbsent(p.free.fifo, b);
    assert p.free.lru - {b} == p.free.lru;
    if stamped { AnotherTick(p.free, q.free, b, block.stamp); }
    forall c | 0 <= c < |q.blocks| ensures BlockOk(q, c) { assert BlockOk(p, c); }
  }

  lemma {:induction false} ReleasedOk(p: Pool, b: nat, keeps: bool, q: Pool)
    requires PoolOk(p) && b < |p.blocks| && p.blocks[b].refs > 0 && q == Released(p, b, keeps)
    ensures PoolOk(q) && OnlyBlock(p, q, b) && |q.blocks| == |p.blocks| && q.blocks[b].refs == p.blocks[b].refs - 1
    ensures NumFree(q) == NumFree(p) + (if p.blocks[b].refs == 1 then 1 else 0)
  {
    assert BlockOk(p, b);
    if p.blocks[b].refs == 1 {
      ReleasedLast(p, b, q.blocks[b], q, p.blocks[b].cached && keeps);
    } else {
      BusyUpdate(p.blocks, b, q.blocks[b], |p.blocks|, q.blocks);
      forall c | 0 <= c < |q.blocks| ensures BlockOk(q, c) { assert BlockOk(p, c); }
    }
  }

  // ----- labels -----

  /** Changing the label of a block in use. */
  lemma {:induction false} RelabelledOk(p: Pool, b: nat, block: Block, q: Pool)
    requires PoolOk(p) && b < |p.blocks| && p.blocks[b].refs > 0 && q == Put(p, b, block)
    requires block.refs == p.blocks[b].refs && (block.cached ==> block.hash.Some? && block.full)
    ensures PoolOk(q) && OnlyBlock(p, q, b) && |q.blocks| == |p.blocks| && NumFree(q) == NumFree(p)
  {
    assert BlockOk(p, b);
    BusyUpdate(p.blocks, b, block, |p.blocks|, q.blocks);
    forall c | 0 <= c < |q.blocks| ensures BlockOk(q, c) { assert BlockOk(p, c); }
  }
}
