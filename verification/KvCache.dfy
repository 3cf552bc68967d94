/** Both devices together with the prefix index and the access counter. */
module KvCache {
  import opened Common
  import opened PrefixKeys
  import opened KvPool

  datatype Device = GPU | CPU

  datatype Ref = Ref(device: Device, number: nat)

  datatype Cache = Cache(gpu: Pool, cpu: Pool, index: map<Key, Ref>, counter: nat)

  function PoolOf(c: Cache, d: Device): Pool {
    if d.GPU? then c.gpu else c.cpu
  }

  function WithPool(c: Cache, d: Device, p: Pool): Cache {
    if d.GPU? then c.(gpu := p) else c.(cpu := p)
  }

  predicate Exists(c: Cache, r: Ref) {
    r.number < |PoolOf(c, r.device).blocks|
  }

  function BlockAt(c: Cache, r: Ref): Block {
    if Exists(c, r) then PoolOf(c, r.device).blocks[r.number] else FRESH
  }

  function Refs(c: Cache, r: Ref): nat {
    BlockAt(c, r).refs
  }

  function Write(c: Cache, r: Ref, block: Block): Cache
    requires Exists(c, r)
  {
    WithPool(c, r.device, Put(PoolOf(c, r.device), r.number, block))
  }

  // ----- operations -----

  /** Takes the entry of `block` out of the index if it is this very block's. */
  function Unindexed(index: map<Key, Ref>, r: Ref, block: Block): map<Key, Ref> {
    if block.hash.Some? && block.hash.value in index && index[block.hash.value] == r then index - {block.hash.value} else index
  }

  /** Hands out a block; a cached GPU block is evicted from the index first. */
  ghost function Allocate(c: Cache, d: Device): (Cache, Ref)
    requires PoolOk(PoolOf(c, d)) && NumFree(PoolOf(c, d)) > 0
  {
    var (p, b) := Taken(PoolOf(c, d));
    var r := Ref(d, b);
    var index := if d.GPU? && BlockAt(c, r).cached then Unindexed(c.index, r, BlockAt(c, r)) else c.index;
    (WithPool(c, d, p).(index := index), r)
  }

  /** One more reference; GPU blocks are touched. */
  function Acquire(c: Cache, r: Ref): Cache
    requires Exists(c, r)
  {
    if r.device.GPU? then c.(gpu := Acquired(c.gpu, r.number, Some(c.counter + 1)), counter := c.counter + 1)
    else c.(cpu := Acquired(c.cpu, r.number, None))
  }

  /** One reference less; only the GPU keeps cached blocks for reuse. */
  function Release(c: Cache, r: Ref): Cache
    requires Exists(c, r) && Refs(c, r) > 0
  {
    WithPool(c, r.device, Released(PoolOf(c, r.device), r.number, r.device.GPU?))
  }

  /** Publishes `r` under `key`; a block published under another key is evicted first. */
  function Register(c: Cache, r: Ref, key: Key): Cache
    requires Exists(c, r)
  {
    var before := BlockAt(c, r);
    var index := if before.hash.Some? && before.hash.value != key then Unindexed(c.index, r, before) else c.index;
    Write(c, r, Block(before.refs, Some(key), true, true, c.counter + 1)).(index := index[key := r], counter := c.counter + 1)
  }

  /** Labels a block without publishing it. */
  function Mark(c: Cache, r: Ref, hash: Option<Key>, full: bool): Cache
    requires Exists(c, r)
  {
    Write(c, r, BlockAt(c, r).(hash := hash, full := full, cached := false))
  }

  // ----- invariant -----

  ghost predicate Sound(c: Cache, k: Key) {
    k in c.index && c.index[k].device.GPU? ==>
      && Exists(c, c.index[k]) && BlockAt(c, c.index[k]).cached && BlockAt(c, c.index[k]).full
      && BlockAt(c, c.index[k]).hash == Some(k)
  }

  /**
    Every block has as many references as `held` has occurrences of it, the queues hold exactly the
    blocks without references, and every index entry for a GPU block names a published, full block
    with that very key.
   */
  ghost predicate Consistent(c: Cache, held: multiset<Ref>) {
    && PoolOk(c.gpu) && PoolOk(c.cpu)
    && (forall r :: Refs(c, r) == held[r])
    && (forall k :: Sound(c, k))
  }

  lemma {:induction false} ConsistentPool(c: Cache, held: multiset<Ref>, d: Device)
    requires Consistent(c, held)
    ensures PoolOk(PoolOf(c, d))
  {
  }

  /** Nothing but block `r` changed. */
  ghost predicate OnlyRef(c: Cache, d: Cache, r: Ref) {
    forall q :: q != r ==> BlockAt(d, q) == BlockAt(c, q)
  }

  lemma {:induction false} OnlyInPool(c: Cache, d: Cache, r: Ref)
    requires OnlyBlock(PoolOf(c, r.device), PoolOf(d, r.device), r.number)
    requires if r.device.GPU? then c.cpu == d.cpu else c.gpu == d.gpu
    ensures OnlyRef(c, d, r)
  {
  }

  lemma {:induction false} SoundKept(c: Cache, d: Cache, r: Ref, k: Key)
    requires OnlyRef(c, d, r) && Sound(c, k)
    requires k in d.index ==> k in c.index && d.index[k] == c.index[k]
    requires r.device.GPU? && k in d.index && d.index[k] == r ==>
      BlockAt(d, r).cached && BlockAt(d, r).full && BlockAt(d, r).hash == BlockAt(c, r).hash && Exists(d, r)
    ensures Sound(d, k)
  {
    if k in d.index && d.index[k] != r && d.index[k].device.GPU? {
      assert BlockAt(d, d.index[k]) == BlockAt(c, c.index[k]);
    }
  }

  // ----- every operation keeps it -----

  /** A block handed out had no holder; it is clean and has one reference; no index entry leads to it. */
  lemma {:induction false} AllocateOk(c: Cache, held: multiset<Ref>, d: Device)
    requires Consistent(c, held) && NumFree(PoolOf(c, d)) > 0
    ensures var (e, r) := Allocate(c, d);
      && Consistent(e, held + multiset{r}) && OnlyRef(c, e, r) && r.device == d
      && held[r] == 0 && Refs(e, r) == 1 && Clean(BlockAt(e, r)) && Exists(e, r)
      && NumFree(PoolOf(e, d)) == NumFree(PoolOf(c, d)) - 1
      && (forall k :: k in e.index ==> k in c.index && e.index[k] == c.index[k])
      && (forall k :: k in c.index && c.index[k] != r ==> k in e.index)
  {
    var (e, r) := Allocate(c, d);
    TakenOk(PoolOf(c, d));
    OnlyInPool(c, e, r);
    assert Refs(c, r) == held[r];
    forall q ensures Refs(e, q) == (held + multiset{r})[q] {
      assert Refs(c, q) == held[q];
      if q != r { assert BlockAt(e, q) == BlockAt(c, q); }
    }
    forall k ensures Sound(e, k) {
      assert Sound(c, k);
      SoundKept(c, e, r, k);
    }
  }

  /** Handing out step by step: pop, evict if cached, count the reference. */
  lemma {:induction false} AllocateSteps(c: Cache, d: Device, q: Pool, b: nat)
    requires PoolOk(PoolOf(c, d)) && NumFree(PoolOf(c, d)) > 0 && (q, b) == PopFree(PoolOf(c, d))
    ensures b < |q.blocks|
    ensures Allocate(c, d) ==
      (WithPool(c, d, Put(q, b, InUse(q.blocks[b]))).(
         index := if d.GPU? && q.blocks[b].cached then Unindexed(c.index, Ref(d, b), q.blocks[b]) else c.index), Ref(d, b))
  {
    PopFreeOk(PoolOf(c, d));
    assert BlockAt(c, Ref(d, b)) == q.blocks[b];
  }

  /** In short: the block handed out is clean and was nobody's, and no other block changed. */
  lemma {:induction false} AllocateFresh(c: Cache, held: multiset<Ref>, d: Device)
    requires Consistent(c, held) && NumFree(PoolOf(c, d)) > 0
    ensures PoolOk(PoolOf(c, d))
    ensures var (e, r) := Allocate(c, d);
      OnlyRef(c, e, r) && held[r] == 0 && Refs(e, r) == 1 && Clean(BlockAt(e, r)) && Exists(e, r) && Consistent(e, held + multiset{r})
  {
    hide OnlyRef;
    AllocateOk(c, held, d);
  }

  lemma {:induction false} AcquireOk(c: Cache, held: multiset<Ref>, r: Ref)
    requires Consistent(c, held) && Exists(c, r)
    ensures var e := Acquire(c, r);
      && Consistent(e, held + multiset{r}) && OnlyRef(c, e, r) && e.index == c.index
      && |e.gpu.blocks| == |c.gpu.blocks| && |e.cpu.blocks| == |c.cpu.blocks|
      && BlockAt(e, r) == BlockAt(c, r).(refs := Refs(c, r) + 1, stamp := BlockAt(e, r).stamp)
      && NumFree(PoolOf(e, r.device)) == NumFree(PoolOf(c, r.device)) - (if Refs(c, r) == 0 then 1 else 0)
  {
    var e := Acquire(c, r);
    var p := PoolOf(c, r.device);
    AcquiredOk(p, r.number, if r.device.GPU? then Some(c.counter + 1) else None, PoolOf(e, r.device));
    OnlyInPool(c, e, r);
    forall q ensures Refs(e, q) == (held + multiset{r})[q] {
      assert Refs(c, q) == held[q];
      if q != r { assert BlockAt(e, q) == BlockAt(c, q); }
    }
    forall k ensures Sound(e, k) {
      assert Sound(c, k);
      SoundKept(c, e, r, k);
    }
  }

  lemma {:induction false} ReleaseOk(c: Cache, held: multiset<Ref>, r: Ref)
    requires Consistent(c, held) && r in held
    ensures Exists(c, r) && Refs(c, r) > 0
    ensures var e := Release(c, r);
      && Consistent(e, held - multiset{r}) && OnlyRef(c, e, r) && e.index == c.index
      && NumFree(PoolOf(e, r.device)) == NumFree(PoolOf(c, r.device)) + (if Refs(c, r) == 1 then 1 else 0)
  {
    assert Refs(c, r) == held[r];
    var e := Release(c, r);
    ReleasedOk(PoolOf(c, r.device), r.number, r.device.GPU?, PoolOf(e, r.device));
    OnlyInPool(c, e, r);
    forall q ensures Refs(e, q) == (held - multiset{r})[q] {
      assert Refs(c, q) == held[q];
      if q != r { assert BlockAt(e, q) == BlockAt(c, q); }
    }
    forall k ensures Sound(e, k) {
      assert Sound(c, k);
      SoundKept(c, e, r, k);
    }
  }

  /** A block with references is in no queue. */
  lemma {:induction false} NotQueued(c: Cache, held: multiset<Ref>, r: Ref)
    requires Consistent(c, held) && r in held
    ensures Exists(c, r) && Refs(c, r) > 0
    ensures r.number !in PoolOf(c, r.device).free.fifo && r.number !in PoolOf(c, r.device).free.lru
  {
    assert Refs(c, r) == held[r];
    assert BlockOk(PoolOf(c, r.device), r.number);
  }

  lemma {:induction false} RegisterOk(c: Cache, held: multiset<Ref>, r: Ref, key: Key)
    requires Consistent(c, held) && r in held
    ensures Exists(c, r)
    ensures var e := Register(c, r, key);
      && Consistent(e, held) && OnlyRef(c, e, r)
      && e.gpu.free == c.gpu.free && e.cpu.free == c.cpu.free && |e.gpu.blocks| == |c.gpu.blocks| && |e.cpu.blocks| == |c.cpu.blocks|
      && BlockAt(e, r).hash == Some(key) && key in e.index && e.index[key] == r
  {
    assert Refs(c, r) == held[r];
    var e := Register(c, r, key);
    RelabelledOk(PoolOf(c, r.device), r.number, BlockAt(e, r), PoolOf(e, r.device));
    OnlyInPool(c, e, r);
    forall q ensures Refs(e, q) == held[q] {
      assert Refs(c, q) == held[q];
      if q != r { assert BlockAt(e, q) == BlockAt(c, q); }
    }
    forall k ensures Sound(e, k) {
      assert Sound(c, k);
      if k != key { SoundKept(c, e, r, k); }
    }
  }

  /** Labelling a block that is in use and not published. */
  lemma {:induction false} MarkOk(c: Cache, held: multiset<Ref>, r: Ref, hash: Option<Key>, full: bool)
    requires Consistent(c, held) && r in held && !BlockAt(c, r).cached
    ensures Exists(c, r)
    ensures var e := Mark(c, r, hash, full);
      && Consistent(e, held) && OnlyRef(c, e, r) && e.index == c.index
      && e.gpu.free == c.gpu.free && e.cpu.free == c.cpu.free && |e.gpu.blocks| == |c.gpu.blocks| && |e.cpu.blocks| == |c.cpu.blocks|
      && BlockAt(e, r).hash == hash && !BlockAt(e, r).cached
  {
    assert Refs(c, r) == held[r];
    var e := Mark(c, r, hash, full);
    RelabelledOk(PoolOf(c, r.device), r.number, BlockAt(e, r), PoolOf(e, r.device));
    OnlyInPool(c, e, r);
    forall q ensures Refs(e, q) == held[q] {
      assert Refs(c, q) == held[q];
      if q != r { assert BlockAt(e, q) == BlockAt(c, q); }
    }
    forall k ensures Sound(e, k) {
      assert Sound(c, k);
      SoundKept(c, e, r, k);
    }
  }
}
