/** What no block operation changes: block size, watermark, pool capacities and, but for reservations, the reserved blocks. */
module KvCapacity {
  import opened Common
  import opened PrefixKeys
  import opened KvPool
  import opened KvCache
  import opened KvManager

  function Capacities(c: Cache): (nat, nat) {
    (c.gpu.capacity, c.cpu.capacity)
  }

  // ----- one block -----

  lemma {:induction false} AllocateSize(c: Cache, d: Device)
    requires PoolOk(PoolOf(c, d)) && NumFree(PoolOf(c, d)) > 0
    ensures Capacities(Allocate(c, d).0) == Capacities(c)
  {
    hide PoolOk, NumFree;
    TakenOk(PoolOf(c, d));
    hide Taken;
  }

  lemma {:induction false} AcquireSize(c: Cache, r: Ref)
    requires Exists(c, r)
    ensures Capacities(Acquire(c, r)) == Capacities(c)
  {
  }

  lemma {:induction false} ReleaseSize(c: Cache, r: Ref)
    requires Exists(c, r) && Refs(c, r) > 0
    ensures Capacities(Release(c, r)) == Capacities(c)
  {
  }

  lemma {:induction false} RegisterSize(c: Cache, r: Ref, key: Key)
    requires Exists(c, r)
    ensures Capacities(Register(c, r, key)) == Capacities(c)
  {
    hide Unindexed;
  }

  lemma {:induction false} MarkSize(c: Cache, r: Ref, hash: Option<Key>, full: bool)
    requires Exists(c, r)
    ensures Capacities(Mark(c, r, hash, full)) == Capacities(c)
  {
  }

  // ----- several blocks -----

  lemma {:induction false} TakeManySize(c: Cache, held: multiset<Ref>, d: Device, n: nat)
    requires Consistent(c, held)
    ensures Capacities(TakeMany(c, held, d, n).cache) == Capacities(c)
    decreases n
  {
    hide Consistent, Allocate, NumFree, Capacities;
    if n > 0 {
      TakeManySize(c, held, d, n - 1);
      var t := TakeMany(c, held, d, n - 1);
      if t.ok && NumFree(PoolOf(t.cache, d)) > 0 {
        ConsistentPool(t.cache, held + multiset(t.refs), d);
        AllocateSize(t.cache, d);
      }
    }
  }

  lemma {:induction false} AcquireManySize(c: Cache, held: multiset<Ref>, refs: seq<Ref>)
    requires Consistent(c, held) && AllExist(c, refs)
    ensures Capacities(AcquireMany(c, held, refs)) == Capacities(c)
    decreases |refs|
  {
    hide Consistent, Acquire, Capacities, BlockAt, Refs, NumFree;
    if refs != [] {
      AcquireOk(c, held, refs[0]);
      AcquireSize(c, refs[0]);
      AcquireManySize(Acquire(c, refs[0]), held + multiset{refs[0]}, refs[1..]);
    }
  }

  lemma {:induction false} ReleaseManySize(c: Cache, held: multiset<Ref>, refs: seq<Ref>)
    requires Consistent(c, held) && multiset(refs) <= held
    ensures Capacities(ReleaseMany(c, held, refs)) == Capacities(c)
    decreases |refs|
  {
    hide Consistent, Release, Capacities, Exists, Refs;
    if refs != [] {
      ReleaseOne(c, held, refs, refs[0], refs[1..]);
      ReleaseSize(c, refs[0]);
      ReleaseManySize(Release(c, refs[0]), held - multiset{refs[0]}, refs[1..]);
    }
  }

  lemma {:induction false} RegisterManySize(c: Cache, held: multiset<Ref>, refs: seq<Ref>, keys: seq<Key>)
    requires Consistent(c, held) && AllHeld(held, refs)
    ensures Capacities(RegisterMany(c, held, refs, keys)) == Capacities(c)
    decreases |refs|
  {
    hide Consistent, Register, Capacities, BlockAt;
    if refs != [] && keys != [] {
      RegisterOk(c, held, refs[0], keys[0]);
      RegisterSize(c, refs[0], keys[0]);
      RegisterManySize(Register(c, refs[0], keys[0]), held, refs[1..], keys[1..]);
    }
  }

  lemma {:induction false} MarkManySize(c: Cache, held: multiset<Ref>, refs: seq<Ref>, keys: seq<Key>)
    requires Consistent(c, held) && AllHeld(held, refs) && AllPrivate(c, refs)
    ensures Capacities(MarkMany(c, held, refs, keys)) == Capacities(c)
    decreases |refs|
  {
    hide Consistent, Capacities, Mark, OnlyRef;
    if refs != [] && keys != [] {
      MarkOk(c, held, refs[0], Some(keys[0]), true);
      MarkSize(c, refs[0], Some(keys[0]), true);
      var next := Mark(c, refs[0], Some(keys[0]), true);
      PrivateAfter(c, next, refs);
      MarkManySize(next, held, refs[1..], keys[1..]);
    }
  }

  // ----- operations of the manager -----

  datatype Plant = Plant(blockSize: nat, watermark: nat, sizes: (nat, nat), reserved: seq<Ref>)

  function PlantOf(m: Manager): Plant {
    Plant(m.blockSize, m.watermark, Capacities(m.cache), m.reserved)
  }

  lemma {:induction false} ReleasePlant(m: Manager, id: RequestId)
    requires Inv(m)
    ensures PlantOf(ReleaseOp(m, id)) == PlantOf(m)
  {
    hide Consistent, ReleaseMany, Capacities;
    TableHeld(m, id);
    ReleaseManySize(m.cache, Held(m), Table(m, id));
  }

  lemma {:induction false} AppendPlant(m: Manager, req: Req)
    requires Inv(m)
    ensures PlantOf(AppendOp(m, req).after) == PlantOf(m)
  {
    hide Consistent, Allocate, NumFree, Capacities, PoolOk;
    ConsistentPool(m.cache, Held(m), GPU);
    if NumFree(m.cache.gpu) > 0 { AllocateSize(m.cache, GPU); }
  }

  lemma {:induction false} CommitPlant(m: Manager, id: RequestId)
    requires Inv(m)
    ensures PlantOf(CommitInputOp(m, id)) == PlantOf(m)
  {
    hide Consistent, RegisterMany, Capacities;
    TableHeld(m, id);
    RegisterManySize(m.cache, Held(m), Table(m, id), InputKeys(m, id));
  }

  lemma {:induction false} OutputPlant(m: Manager, req: Req)
    requires Inv(m)
    ensures PlantOf(RegisterOutputOp(m, req)) == PlantOf(m)
  {
    hide Consistent, RegisterMany, Capacities, OutputKeys, OutputBlocks;
    OutputHeld(m, req);
    if PublishesOutput(m.blockSize, req.prompt) {
      RegisterManySize(m.cache, Held(m), OutputBlocks(m, req), OutputKeys(m.blockSize, req.prompt));
    }
  }

  lemma {:induction false} FreePlant(m: Manager, req: Req)
    requires Inv(m)
    ensures PlantOf(FreeOp(m, req)) == PlantOf(m)
  {
    hide Inv, CommitInputOp, RegisterOutputOp, ReleaseOp, PlantOf;
    CommitInputKeeps(m, req.id);
    CommitPlant(m, req.id);
    RegisterOutputKeeps(CommitInputOp(m, req.id), req);
    OutputPlant(CommitInputOp(m, req.id), req);
    ReleasePlant(RegisterOutputOp(CommitInputOp(m, req.id), req), req.id);
  }

  lemma {:induction false} GatherSize(m: Manager, req: Req)
    requires Inv(m)
    ensures Capacities(Gather(m, req).cache) == Capacities(m.cache)
  {
    hide Consistent, AcquireMany, TakeMany, Capacities, PlanReuse, RequestKeys, AllExist, Hits;
    var hits, keys := PlanReuse(m, req), RequestKeys(m.blockSize, req.prompt);
    HitsAreThere(m, req);
    AcquireManySize(m.cache, Held(m), hits);
    TakeManySize(AcquiredHits(m, req), Held(m) + multiset(hits), GPU, Max(0, Misses(m, req)));
  }

  lemma {:induction false} HitsAreThere(m: Manager, req: Req)
    requires Inv(m)
    ensures AllExist(m.cache, PlanReuse(m, req))
  {
    var keys := RequestKeys(m.blockSize, req.prompt);
    HitsExist(m.cache, Held(m), keys, |keys|);
  }

  lemma {:induction false} AllocatePlant(m: Manager, req: Req)
    requires Inv(m)
    ensures PlantOf(AllocateOp(m, req).after) == PlantOf(m)
  {
    hide Consistent, Gather, MarkMany, ReleaseMany, Capacities, PlanReuse, RequestKeys, Reversed;
    GatherSize(m, req);
    var t, hits, keys := Gather(m, req), PlanReuse(m, req), RequestKeys(m.blockSize, req.prompt);
    if t.ok {
      PendingReady(m, req);
      MarkManySize(t.cache, Held(m) + multiset(hits + t.refs), t.refs, keys[|hits|..]);
    } else {
      ReleaseManySize(t.cache, Held(m) + multiset(hits + t.refs), Reversed(hits + t.refs));
    }
  }
}
