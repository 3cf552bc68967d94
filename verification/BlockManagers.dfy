/** `BlockAllocator`, `BlockPool`, `KVCacheManager`, `BlockTable` and `BlockManager` as they run. */
module BlockManagers {
  import opened Common
  import opened PrefixKeys
  import opened KvPool
  import opened KvCache
  import opened KvManager
  import opened FreeQueues
  import KvRuns

  class BlockManager {
    const blockSize: nat
    const watermark: nat
    const gpuCapacity: nat
    const cpuCapacity: nat
    const gpuQueue: FreeBlockQueue
    const cpuQueue: FreeBlockQueue
    var gpuBlocks: seq<Block>
    var cpuBlocks: seq<Block>
    var index: map<Key, Ref>
    var counter: nat
    var table: map<RequestId, seq<Ref>>
    var reserved: seq<Ref>
    var keys: map<RequestId, seq<Key>>
    var committed: set<RequestId>

    ghost function CacheState(): Cache
      reads this, gpuQueue, cpuQueue
    {
      Cache(Pool(gpuCapacity, gpuBlocks, gpuQueue.Queue()), Pool(cpuCapacity, cpuBlocks, cpuQueue.Queue()), index, counter)
    }

    ghost function State(): Manager
      reads this, gpuQueue, cpuQueue
    {
      Manager(blockSize, watermark, CacheState(), table, reserved, keys, committed)
    }

    /** Between the steps of an operation: `held` counts the table, the reservations and what the operation has in hand. */
    ghost predicate Ready(held: multiset<Ref>)
      reads this, gpuQueue, cpuQueue
    {
      gpuQueue != cpuQueue && gpuQueue.Valid() && cpuQueue.Valid() && Consistent(CacheState(), held)
    }

    ghost predicate Valid()
      reads this, gpuQueue, cpuQueue
    {
      Ready(Held(State()))
    }

    constructor (size: nat, margin: nat, gpu: nat, cpu: nat)
      ensures Valid() && fresh(gpuQueue) && fresh(cpuQueue) && State() == KvRuns.NewManager(size, margin, gpu, cpu)
    {
      blockSize, watermark, gpuCapacity, cpuCapacity := size, margin, gpu, cpu;
      gpuQueue := new FreeBlockQueue();
      cpuQueue := new FreeBlockQueue();
      gpuBlocks, cpuBlocks, index, counter := [], [], map[], 0;
      table, reserved, keys, committed := map[], [], map[], {};
      new;
      assert Inv(KvRuns.NewManager(size, margin, gpu, cpu));
    }

    // ----- single blocks -----

    method FreeBlocks(d: Device) returns (n: int)
      requires gpuQueue.Valid() && cpuQueue.Valid()
      ensures n == NumFree(PoolOf(CacheState(), d))
    {
      if d.GPU? {
        var queued := gpuQueue.Length();
        n := gpuCapacity - |gpuBlocks| + queued;
      } else {
        var queued := cpuQueue.Length();
        n := cpuCapacity - |cpuBlocks| + queued;
      }
    }

    /** `BlockPool.pop_free_block`: a new number, else the head of the queue. */
    method PopGpu() returns (b: nat)
      requires gpuQueue.Valid() && PoolOk(CacheState().gpu) && NumFree(CacheState().gpu) > 0
      modifies this`gpuBlocks, gpuQueue
      ensures gpuQueue.Valid() && (CacheState().gpu, b) == PopFree(old(CacheState()).gpu)
    {
      hide PoolOk, View, FieldsOk;
      PoolSize(CacheState().gpu);
      if |gpuBlocks| < gpuCapacity {
        b := |gpuBlocks|;
        gpuBlocks := gpuBlocks + [FRESH];
      } else {
        var popped := gpuQueue.PopLeft();
        b := popped.value;
      }
    }

    method PopCpu() returns (b: nat)
      requires cpuQueue.Valid() && PoolOk(CacheState().cpu) && NumFree(CacheState().cpu) > 0
      modifies this`cpuBlocks, cpuQueue
      ensures cpuQueue.Valid() && (CacheState().cpu, b) == PopFree(old(CacheState()).cpu)
    {
      hide PoolOk, View, FieldsOk;
      PoolSize(CacheState().cpu);
      if |cpuBlocks| < cpuCapacity {
        b := |cpuBlocks|;
        cpuBlocks := cpuBlocks + [FRESH];
      } else {
        var popped := cpuQueue.PopLeft();
        b := popped.value;
      }
    }

    /** `BlockAllocator.allocate` on the GPU; the block it gets has no references, so its own check never fires. */
    method AllocateGpu(ghost held: multiset<Ref>) returns (r: Ref)
      requires Ready(held) && NumFree(CacheState().gpu) > 0
      modifies this`gpuBlocks, this`index, gpuQueue
      ensures PoolOk(old(CacheState()).gpu)
      ensures (CacheState(), r) == Allocate(old(CacheState()), GPU) && Ready(held + multiset{r})
    {
      hide Consistent, PoolOk, Allocate, PopFree, OnlyRef, View, FieldsOk;
      ghost var before := CacheState();
      AllocateFresh(before, held, GPU);
      var b := PopGpu();
      AllocateSteps(before, GPU, CacheState().gpu, b);
      var block := gpuBlocks[b];
      if block.cached { index := Unindexed(index, Ref(GPU, b), block); }
      gpuBlocks := gpuBlocks[b := InUse(block)];
      r := Ref(GPU, b);
    }

    method AllocateCpu(ghost held: multiset<Ref>) returns (r: Ref)
      requires Ready(held) && NumFree(CacheState().cpu) > 0
      modifies this`cpuBlocks, cpuQueue
      ensures PoolOk(old(CacheState()).cpu)
      ensures (CacheState(), r) == Allocate(old(CacheState()), CPU) && Ready(held + multiset{r})
    {
      hide Consistent, PoolOk, Allocate, PopFree, OnlyRef, View, FieldsOk;
      ghost var before := CacheState();
      AllocateFresh(before, held, CPU);
      var b := PopCpu();
      AllocateSteps(before, CPU, CacheState().cpu, b);
      cpuBlocks := cpuBlocks[b := InUse(cpuBlocks[b])];
      r := Ref(CPU, b);
    }

    method AllocateBlock(d: Device, ghost held: multiset<Ref>) returns (result: Result<Ref>)
      requires Ready(held)
      modifies this`gpuBlocks, this`cpuBlocks, this`index, gpuQueue, cpuQueue
      ensures PoolOk(PoolOf(old(CacheState()), d))
      ensures result.Ok? <==> NumFree(PoolOf(old(CacheState()), d)) > 0
      ensures result.Err? ==> result.error == OutOfBlocksError && CacheState() == old(CacheState()) && Ready(held)
      ensures result.Ok? ==> (CacheState(), result.value) == Allocate(old(CacheState()), d) && Ready(held + multiset{result.value})
    {
      hide Consistent, PoolOk, Allocate, View, FieldsOk;
      ConsistentPool(CacheState(), held, d);
      var free := FreeBlocks(d);
      if free <= 0 { return Err(OutOfBlocksError); }
      var r;
      if d.GPU? { r := AllocateGpu(held); } else { r := AllocateCpu(held); }
      result := Ok(r);
    }

    method AcquireGpu(n: nat, ghost held: multiset<Ref>)
      requires Ready(held) && Exists(CacheState(), Ref(GPU, n))
      modifies this`gpuBlocks, this`counter, gpuQueue
      ensures CacheState() == Acquire(old(CacheState()), Ref(GPU, n)) && Ready(held + multiset{Ref(GPU, n)})
    {
      hide Consistent, OnlyRef, View, FieldsOk;
      AcquireOk(CacheState(), held, Ref(GPU, n));
      var block := gpuBlocks[n];
      if block.refs == 0 { gpuQueue.RemoveBlock(n); }
      counter := counter + 1;
      gpuBlocks := gpuBlocks[n := block.(refs := block.refs + 1, stamp := counter)];
    }

    method AcquireCpu(n: nat, ghost held: multiset<Ref>)
      requires Ready(held) && Exists(CacheState(), Ref(CPU, n))
      modifies this`cpuBlocks, cpuQueue
      ensures CacheState() == Acquire(old(CacheState()), Ref(CPU, n)) && Ready(held + multiset{Ref(CPU, n)})
    {
      hide Consistent, OnlyRef, View, FieldsOk;
      AcquireOk(CacheState(), held, Ref(CPU, n));
      var block := cpuBlocks[n];
      if block.refs == 0 { cpuQueue.RemoveBlock(n); }
      cpuBlocks := cpuBlocks[n := block.(refs := block.refs + 1)];
    }

    /** `BlockAllocator.acquire`. */
    method AcquireBlock(r: Ref, ghost held: multiset<Ref>)
      requires Ready(held) && Exists(CacheState(), r)
      modifies this`gpuBlocks, this`cpuBlocks, this`counter, gpuQueue, cpuQueue
      ensures CacheState() == Acquire(old(CacheState()), r) && Ready(held + multiset{r})
    {
      hide Consistent, Acquire, View, FieldsOk;
      if r.device.GPU? { AcquireGpu(r.number, held); } else { AcquireCpu(r.number, held); }
    }

    method ReleaseGpu(n: nat, ghost held: multiset<Ref>)
      requires Ready(held) && Ref(GPU, n) in held
      modifies this`gpuBlocks, gpuQueue
      ensures Exists(old(CacheState()), Ref(GPU, n)) && Refs(old(CacheState()), Ref(GPU, n)) > 0
      ensures CacheState() == Release(old(CacheState()), Ref(GPU, n)) && Ready(held - multiset{Ref(GPU, n)})
    {
      hide Consistent, OnlyRef, View, FieldsOk;
      NotQueued(CacheState(), held, Ref(GPU, n));
      ReleaseOk(CacheState(), held, Ref(GPU, n));
      var block := gpuBlocks[n].(refs := gpuBlocks[n].refs - 1);
      gpuBlocks := gpuBlocks[n := block];
      if block.refs == 0 {
        if !block.cached {
          gpuBlocks := gpuBlocks[n := Cleared(block)];
          gpuQueue.AppendUnique(n);
        } else {
          gpuQueue.AppendLru(n, block.stamp);
        }
      }
    }

    method ReleaseCpu(n: nat, ghost held: multiset<Ref>)
      requires Ready(held) && Ref(CPU, n) in held
      modifies this`cpuBlocks, cpuQueue
      ensures Exists(old(CacheState()), Ref(CPU, n)) && Refs(old(CacheState()), Ref(CPU, n)) > 0
      ensures CacheState() == Release(old(CacheState()), Ref(CPU, n)) && Ready(held - multiset{Ref(CPU, n)})
    {
      hide Consistent, OnlyRef, View, FieldsOk;
      ReleaseOk(CacheState(), held, Ref(CPU, n));
      var block := cpuBlocks[n].(refs := cpuBlocks[n].refs - 1);
      cpuBlocks := cpuBlocks[n := block];
      if block.refs == 0 {
        cpuBlocks := cpuBlocks[n := Cleared(block)];
        cpuQueue.Append(n);
      }
    }

    /** `BlockAllocator.free`; a held block always has references, so it never complains. */
    method ReleaseBlock(r: Ref, ghost held: multiset<Ref>)
      requires Ready(held) && r in held
      modifies this`gpuBlocks, this`cpuBlocks, gpuQueue, cpuQueue
      ensures Exists(old(CacheState()), r) && Refs(old(CacheState()), r) > 0
      ensures CacheState() == Release(old(CacheState()), r) && Ready(held - multiset{r})
    {
      hide Consistent, Release, View, FieldsOk;
      if r.device.GPU? { ReleaseGpu(r.number, held); } else { ReleaseCpu(r.number, held); }
    }

    /** One step of `register_blocks`: a block known under another key is evicted first. */
    method RegisterBlock(r: Ref, key: Key, ghost held: multiset<Ref>)
      requires Ready(held) && r in held
      modifies this`gpuBlocks, this`cpuBlocks, this`index, this`counter
      ensures Exists(old(CacheState()), r) && CacheState() == Register(old(CacheState()), r, key) && Ready(held)
    {
      hide Consistent, OnlyRef, View, FieldsOk, Sound;
      RegisterOk(CacheState(), held, r, key);
      var block := if r.device.GPU? then gpuBlocks[r.number] else cpuBlocks[r.number];
      if block.hash.Some? && block.hash.value != key {
        index := Unindexed(index, r, block);
        block := Cleared(block);
      }
      counter := counter + 1;
      index := index[key := r];
      block := Block(block.refs, Some(key), true, true, counter);
      if r.device.GPU? { gpuBlocks := gpuBlocks[r.number := block]; } else { cpuBlocks := cpuBlocks[r.number := block]; }
    }

    method MarkBlock(r: Ref, hash: Option<Key>, full: bool, ghost held: multiset<Ref>)
      requires Ready(held) && r in held && !BlockAt(CacheState(), r).cached
      modifies this`gpuBlocks, this`cpuBlocks
      ensures Exists(old(CacheState()), r) && CacheState() == Mark(old(CacheState()), r, hash, full) && Ready(held)
    {
      hide Consistent, OnlyRef, View, FieldsOk;
      MarkOk(CacheState(), held, r, hash, full);
      if r.device.GPU? {
        gpuBlocks := gpuBlocks[r.number := gpuBlocks[r.number].(hash := hash, full := full, cached := false)];
      } else {
        cpuBlocks := cpuBlocks[r.number := cpuBlocks[r.number].(hash := hash, full := full, cached := false)];
      }
    }

    // ----- several blocks -----

    method TakeBlocks(d: Device, n: nat, ghost held: multiset<Ref>) returns (refs: seq<Ref>, ok: bool)
      requires Ready(held)
      modifies this`gpuBlocks, this`cpuBlocks, this`index, gpuQueue, cpuQueue
      ensures Taking(CacheState(), refs, ok) == TakeMany(old(CacheState()), held, d, n) && Ready(held + multiset(refs))
    {
      hide Consistent, PoolOk, Allocate, View, FieldsOk, TakeMany;
      refs := [];
      TakeNone(CacheState(), held, d);
      for i := 0 to n
        invariant Taking(CacheState(), refs, true) == TakeMany(old(CacheState()), held, d, i) && Ready(held + multiset(refs))
      {
        ghost var before := Taking(CacheState(), refs, true);
        var block := AllocateBlock(d, held + multiset(refs));
        TakeUnfold(old(CacheState()), held, d, i, before);
        if block.Err? {
          TakeStuck(old(CacheState()), held, d, i + 1, n);
          return refs, false;
        }
        assert held + multiset(refs + [block.value]) == held + multiset(refs) + multiset{block.value};
        refs := refs + [block.value];
      }
      ok := true;
    }

    method AcquireBlocks(refs: seq<Ref>, ghost held: multiset<Ref>)
      requires Ready(held) && AllExist(CacheState(), refs)
      modifies this`gpuBlocks, this`cpuBlocks, this`counter, gpuQueue, cpuQueue
      ensures CacheState() == AcquireMany(old(CacheState()), held, refs) && Ready(held + multiset(refs))
    {
      hide Consistent, Acquire, OnlyRef, View, FieldsOk;
      ghost var hand := held;
      for i := 0 to |refs|
        invariant Ready(hand) && AllExist(CacheState(), refs[i..]) && hand + multiset(refs[i..]) == held + multiset(refs)
        invariant AcquireMany(CacheState(), hand, refs[i..]) == AcquireMany(old(CacheState()), held, refs)
      {
        ghost var rest := refs[i..];
        assert rest[0] == refs[i] && rest[1..] == refs[i + 1..] && rest == [rest[0]] + rest[1..];
        assert Exists(CacheState(), rest[0]);
        AcquireOk(CacheState(), hand, refs[i]);
        AcquireBlock(refs[i], hand);
        hand := hand + multiset{refs[i]};
      }
    }

    method ReleaseBlocks(refs: seq<Ref>, ghost held: multiset<Ref>)
      requires Ready(held) && multiset(refs) <= held
      modifies this`gpuBlocks, this`cpuBlocks, gpuQueue, cpuQueue
      ensures CacheState() == ReleaseMany(old(CacheState()), held, refs) && Ready(held - multiset(refs))
    {
      hide Consistent, Release, OnlyRef, View, FieldsOk;
      ghost var hand := held;
      for i := 0 to |refs|
        invariant Ready(hand) && multiset(refs[i..]) <= hand && hand - multiset(refs[i..]) == held - multiset(refs)
        invariant ReleaseMany(CacheState(), hand, refs[i..]) == ReleaseMany(old(CacheState()), held, refs)
      {
        ghost var rest := refs[i..];
        assert rest[0] == refs[i] && rest[1..] == refs[i + 1..] && rest == [rest[0]] + rest[1..];
        assert multiset(rest) == multiset{rest[0]} + multiset(rest[1..]);
        ReleaseBlock(refs[i], hand);
        hand := hand - multiset{refs[i]};
      }
    }

    /** `register_blocks`. */
    method RegisterBlocks(refs: seq<Ref>, names: seq<Key>, ghost held: multiset<Ref>)
      requires Ready(held) && AllHeld(held, refs)
      modifies this`gpuBlocks, this`cpuBlocks, this`index, this`counter
      ensures CacheState() == RegisterMany(old(CacheState()), held, refs, names) && Ready(held)
    {
      hide Consistent, Register, OnlyRef, View, FieldsOk;
      var n := if |refs| <= |names| then |refs| else |names|;
      for i := 0 to n
        invariant Ready(held) && AllHeld(held, refs[i..])
        invariant RegisterMany(CacheState(), held, refs[i..], names[i..]) == RegisterMany(old(CacheState()), held, refs, names)
      {
        ghost var rest, more := refs[i..], names[i..];
        assert rest[0] == refs[i] && rest[1..] == refs[i + 1..] && more[0] == names[i] && more[1..] == names[i + 1..];
        RegisterBlock(refs[i], names[i], held);
      }
    }

    method MarkBlocks(refs: seq<Ref>, names: seq<Key>, ghost held: multiset<Ref>)
      requires Ready(held) && AllHeld(held, refs) && AllPrivate(CacheState(), refs)
      modifies this`gpuBlocks, this`cpuBlocks
      ensures CacheState() == MarkMany(old(CacheState()), held, refs, names) && Ready(held)
    {
      hide Consistent, Mark, View, FieldsOk;
      var n := if |refs| <= |names| then |refs| else |names|;
      for i := 0 to n
        invariant Ready(held) && AllHeld(held, refs[i..]) && AllPrivate(CacheState(), refs[i..])
        invariant MarkMany(CacheState(), held, refs[i..], names[i..]) == MarkMany(old(CacheState()), held, refs, names)
      {
        ghost var rest, more, before := refs[i..], names[i..], CacheState();
        assert rest[0] == refs[i] && rest[1..] == refs[i + 1..] && more[0] == names[i] && more[1..] == names[i + 1..];
        MarkOk(before, held, rest[0], Some(more[0]), true);
        MarkBlock(refs[i], Some(names[i]), true, held);
        PrivateAfter(before, CacheState(), rest);
      }
    }

    // ----- admission -----

    /** `_is_gpu_hit` on what the index holds for `key`. */
    method FindHit(key: Key) returns (found: Option<Ref>)
      ensures found.Some? <==> IsHit(CacheState(), key)
      ensures found.Some? ==> key in index && found.value == index[key]
    {
      found := None;
      if key in index && index[key].device.GPU? && index[key].number < |gpuBlocks| {
        var block := gpuBlocks[index[key].number];
        if block.cached && block.full { found := Some(index[key]); }
      }
    }

    /** `plan_reuse`: the leading run of indexed GPU blocks. */
    method PlanHits(req: Req) returns (names: seq<Key>, hits: seq<Ref>)
      ensures names == RequestKeys(blockSize, req.prompt) && hits == PlanReuse(State(), req)
    {
      hide View, FieldsOk, IsHit;
      names := RequestKeys(blockSize, req.prompt);
      hits := [];
      for i := 0 to |names|
        invariant hits == Hits(CacheState(), names, i) && |hits| == i
      {
        var found := FindHit(names[i]);
        if found.None? {
          HitsStop(CacheState(), names, i + 1, |names|);
          return;
        }
        hits := hits + [found.value];
      }
    }

    method CountZeroRefs(refs: seq<Ref>) returns (n: nat)
      ensures n == ZeroRefs(CacheState(), refs)
    {
      hide View, FieldsOk;
      n := 0;
      for i := 0 to |refs|
        invariant n + ZeroRefs(CacheState(), refs[i..]) == ZeroRefs(CacheState(), refs)
      {
        ghost var rest := refs[i..];
        assert rest[0] == refs[i] && rest[1..] == refs[i + 1..];
        var blocks := if refs[i].device.GPU? then gpuBlocks else cpuBlocks;
        if refs[i].number >= |blocks| || blocks[refs[i].number].refs == 0 { n := n + 1; }
      }
    }

    method CanAllocateRequest(req: Req) returns (yes: bool)
      requires gpuQueue.Valid() && cpuQueue.Valid()
      ensures yes == CanAllocate(State(), req)
    {
      var names, hits := PlanHits(req);
      var misses := req.logicalBlocks - |hits|;
      var free := FreeBlocks(GPU);
      var idle := CountZeroRefs(hits);
      yes := free - idle - misses >= watermark;
    }

    /** The first half of `allocate`: take hold of the hits, then of as many blocks as are missing. */
    method GatherBlocks(req: Req) returns (names: seq<Key>, hits: seq<Ref>, refs: seq<Ref>, ok: bool)
      requires Valid()
      modifies this`gpuBlocks, this`cpuBlocks, this`index, this`counter, gpuQueue, cpuQueue
      ensures Inv(old(State())) && Taking(CacheState(), refs, ok) == Gather(old(State()), req)
      ensures names == RequestKeys(blockSize, req.prompt) && hits == PlanReuse(old(State()), req)
      ensures Ready(Held(old(State())) + multiset(hits + refs))
    {
      hide Consistent, View, FieldsOk, PlanReuse, RequestKeys, AcquireMany, TakeMany, Holders, AcquiredHits;
      ghost var before, held := State(), Held(State());
      names, hits := PlanHits(req);
      HitsReady(before, req);
      AcquireBlocks(hits, held);
      refs, ok := TakeBlocks(GPU, if req.logicalBlocks > |hits| then req.logicalBlocks - |hits| else 0, held + multiset(hits));
      assert held + multiset(hits + refs) == held + multiset(hits) + multiset(refs);
    }

    /** The exception path of `allocate`: everything gathered is given back, last first. */
    method UndoGather(req: Req, hits: seq<Ref>, refs: seq<Ref>, ghost before: Manager)
      requires Inv(before) && State() == before.(cache := CacheState()) && Table(before, req.id) == []
      requires hits == PlanReuse(before, req) && Taking(CacheState(), refs, false) == Gather(before, req)
      requires Ready(Held(before) + multiset(hits + refs))
      modifies this`gpuBlocks, this`cpuBlocks, gpuQueue, cpuQueue
      ensures Valid() && Step(State(), Some(OutOfBlocksError)) == AllocateOp(before, req)
    {
      hide Consistent, View, FieldsOk, PlanReuse, Gather, ReleaseMany, AllocateOp, Holders;
      AllocateKeeps(before, req);
      AllocateUndone(before, req, hits + refs, CacheState());
      var undo := Reversed(hits + refs);
      ReleaseBlocks(undo, Held(before) + multiset(hits + refs));
    }

    /** The rest of `allocate`: the gathered blocks become the request's and the new ones get their pending keys. */
    method KeepGather(req: Req, names: seq<Key>, hits: seq<Ref>, refs: seq<Ref>, ghost before: Manager)
      requires Inv(before) && State() == before.(cache := CacheState()) && Table(before, req.id) == []
      requires hits == PlanReuse(before, req) && Taking(CacheState(), refs, true) == Gather(before, req)
      requires names == RequestKeys(blockSize, req.prompt) && Ready(Held(before) + multiset(hits + refs))
      modifies this
      ensures Valid() && Step(State(), None) == AllocateOp(before, req)
    {
      hide Consistent, View, FieldsOk, PlanReuse, RequestKeys, Gather, MarkMany, AllocateOp, Holders;
      AllocateKeeps(before, req);
      AllocateDone(before, req, names, hits, Taking(CacheState(), refs, true));
      MarkBlocks(refs, names[|hits|..], Held(before) + multiset(hits + refs));
      table := table[req.id := hits + refs];
      keys := keys[req.id := names];
      committed := committed - {req.id};
    }

    /** `allocate`. */
    method AllocateRequest(req: Req) returns (error: Option<Error>)
      requires Valid()
      modifies this, gpuQueue, cpuQueue
      ensures Inv(old(State())) && Valid() && Step(State(), error) == AllocateOp(old(State()), req)
    {
      hide Consistent, View, FieldsOk, PlanReuse, RequestKeys, Gather, AllocateOp, Holders;
      AllocateTwice(State(), req);
      if req.id in table && table[req.id] != [] { return Some(SimulationStateError); }
      var names, hits, refs, ok := GatherBlocks(req);
      if ok {
        KeepGather(req, names, hits, refs, old(State()));
        error := None;
      } else {
        UndoGather(req, hits, refs, old(State()));
        error := Some(OutOfBlocksError);
      }
    }

    // ----- publishing and releasing -----

    /** `commit_input_cache`. */
    method CommitInputCache(id: RequestId)
      requires Valid()
      modifies this
      ensures Inv(old(State())) && Valid() && State() == CommitInputOp(old(State()), id)
    {
      hide Consistent, View, FieldsOk, RegisterMany, Holders;
      CommitInputKeeps(State(), id);
      TableHeld(State(), id);
      if id in committed { return; }
      var refs := if id in table then table[id] else [];
      var names := if id in keys then keys[id] else [];
      RegisterBlocks(refs, names, Held(State()));
      committed := committed + {id};
    }

    /** `register_output_blocks`. */
    method RegisterOutput(req: Req)
      requires Valid()
      modifies this`gpuBlocks, this`cpuBlocks, this`index, this`counter
      ensures Inv(old(State())) && Valid() && State() == RegisterOutputOp(old(State()), req)
    {
      hide Consistent, View, FieldsOk, RegisterMany, Holders, OutputKeys;
      RegisterOutputKeeps(State(), req);
      OutputHeld(State(), req);
      if !PublishesOutput(blockSize, req.prompt) { return; }
      var refs := if req.id in table then table[req.id] else [];
      var start := FullInputBlocks(blockSize, req.prompt);
      var output := if start < |refs| then refs[start..] else [];
      var names := OutputKeys(blockSize, req.prompt);
      RegisterBlocks(output, names, Held(State()));
    }

    /** `release_request_blocks`. */
    method ReleaseRequest(id: RequestId)
      requires Valid()
      modifies this, gpuQueue, cpuQueue
      ensures Inv(old(State())) && Valid() && State() == ReleaseOp(old(State()), id)
    {
      hide Consistent, View, FieldsOk, ReleaseMany, Holders;
      ReleaseKeeps(State(), id);
      TableHeld(State(), id);
      var refs := if id in table then table[id] else [];
      ReleaseBlocks(refs, Held(State()));
      table := table - {id};
    }

    /** `free`. */
    method FreeRequest(req: Req)
      requires Valid()
      modifies this, gpuQueue, cpuQueue
      ensures Inv(old(State())) && Valid() && State() == FreeOp(old(State()), req)
    {
      hide Consistent, View, FieldsOk, CommitInputOp, RegisterOutputOp, ReleaseOp, Holders;
      CommitInputCache(req.id);
      RegisterOutput(req);
      ReleaseRequest(req.id);
    }

    // ----- decoding -----

    method CanAppendSlot(req: Req, reservedBlocks: nat) returns (yes: bool)
      requires gpuQueue.Valid() && cpuQueue.Valid()
      ensures yes == CanAppend(State(), req, reservedBlocks)
    {
      var refs := if req.id in table then table[req.id] else [];
      var free := FreeBlocks(GPU);
      yes := free >= (if |refs| < req.logicalBlocks then 1 else 0) + reservedBlocks;
    }

    method AppendSlot(req: Req) returns (error: Option<Error>)
      requires Valid()
      modifies this, gpuQueue, cpuQueue
      ensures Inv(old(State())) && Valid() && Step(State(), error) == AppendOp(old(State()), req)
    {
      hide Consistent, PoolOk, Allocate, View, FieldsOk, Holders;
      AppendKeeps(State(), req);
      ConsistentPool(CacheState(), Held(State()), GPU);
      var refs := if req.id in table then table[req.id] else [];
      if |refs| >= req.logicalBlocks { return None; }
      var block := AllocateBlock(GPU, Held(State()));
      if block.Err? { return Some(block.error); }
      table := table[req.id := refs + [block.value]];
      error := None;
    }

    /** `rollback_last_block`. */
    method RollbackLastBlock(id: RequestId)
      requires Valid()
      modifies this, gpuQueue, cpuQueue
      ensures Inv(old(State())) && Valid() && State() == RollbackOp(old(State()), id)
    {
      hide Consistent, Release, View, FieldsOk, Holders;
      RollbackKeeps(State(), id);
      var refs := if id in table then table[id] else [];
      if refs == [] { return; }
      LastHeld(State(), id);
      ReleaseBlock(refs[|refs| - 1], Held(State()));
      table := WithRow(table, id, refs[..|refs| - 1]);
    }

    // ----- sharing and moving -----

    /** `fork`: every block of the parent gets one more holder. */
    method ForkRequest(parent: RequestId, child: RequestId) returns (error: Option<Error>)
      requires Valid()
      modifies this, gpuQueue, cpuQueue
      ensures Inv(old(State())) && Valid() && Step(State(), error) == ForkOp(old(State()), parent, child)
    {
      hide Consistent, AcquireMany, View, FieldsOk, Holders;
      ForkKeeps(State(), parent, child);
      if child in table && table[child] != [] { return Some(SimulationStateError); }
      var refs := if parent in table then table[parent] else [];
      if refs == [] { return Some(SimulationStateError); }
      TableHeld(State(), parent);
      HeldExist(CacheState(), Held(State()), refs);
      AcquireBlocks(refs, Held(State()));
      table := table[child := refs];
      error := None;
    }

    /** Copies the label of `source` onto a newly handed out block. */
    method CopyBlock(source: Ref, d: Device, ghost held: multiset<Ref>) returns (result: Result<Ref>)
      requires Ready(held)
      modifies this`gpuBlocks, this`cpuBlocks, this`index, gpuQueue, cpuQueue
      ensures PoolOk(PoolOf(old(CacheState()), d))
      ensures result.Ok? <==> NumFree(PoolOf(old(CacheState()), d)) > 0
      ensures result.Err? ==> CacheState() == old(CacheState()) && Ready(held)
      ensures result.Ok? ==>
        var (e, r) := Allocate(old(CacheState()), d);
        && result.value == r && Exists(e, r) && CacheState() == Mark(e, r, BlockAt(e, source).hash, BlockAt(e, source).full)
        && Ready(held + multiset{r})
    {
      hide Consistent, PoolOk, Allocate, View, FieldsOk, OnlyRef;
      ghost var before := CacheState();
      result := AllocateBlock(d, held);
      if result.Ok? {
        AllocateFresh(before, held, d);
        var blocks := if source.device.GPU? then gpuBlocks else cpuBlocks;
        var block := if source.number < |blocks| then blocks[source.number] else FRESH;
        MarkBlock(result.value, block.hash, block.full, held + multiset{result.value});
      }
    }

    method CopyBlocks(sources: seq<Ref>, d: Device, ghost held: multiset<Ref>) returns (refs: seq<Ref>)
      requires Ready(held) && CopyMany(CacheState(), held, sources, d, |sources|).ok
      modifies this`gpuBlocks, this`cpuBlocks, this`index, gpuQueue, cpuQueue
      ensures Taking(CacheState(), refs, true) == CopyMany(old(CacheState()), held, sources, d, |sources|) && Ready(held + multiset(refs))
    {
      hide Consistent, PoolOk, Allocate, View, FieldsOk, CopyMany;
      refs := [];
      CopyNone(CacheState(), held, sources, d);
      for i := 0 to |sources|
        invariant Taking(CacheState(), refs, true) == CopyMany(old(CacheState()), held, sources, d, i) && Ready(held + multiset(refs))
      {
        ghost var before := Taking(CacheState(), refs, true);
        CopySucceeds(old(CacheState()), held, sources, d, i + 1, |sources|);
        ConsistentPool(CacheState(), held + multiset(refs), d);
        CopyUnfold(old(CacheState()), held, sources, d, i, before);
        var block := CopyBlock(sources[i], d, held + multiset(refs));
        assert held + multiset(refs + [block.value]) == held + multiset(refs) + multiset{block.value};
        refs := refs + [block.value];
      }
    }

    /** `_validate_blocks_device`. */
    static method OnDevice(refs: seq<Ref>, d: Device) returns (yes: bool)
      ensures yes == AllOn(refs, d)
    {
      for i := 0 to |refs|
        invariant forall k :: 0 <= k < i ==> refs[k].device == d
      {
        if refs[i].device != d { return false; }
      }
      yes := true;
    }

    /** The part of `_swap` that changes something: copy, install the copies, free the sources. */
    method MoveBlocks(id: RequestId, refs: seq<Ref>, source: Device, target: Device)
      requires Valid() && refs == Table(State(), id) && AllOn(refs, source) && NumFree(PoolOf(CacheState(), target)) >= |refs|
      modifies this, gpuQueue, cpuQueue
      ensures Inv(old(State())) && Valid() && Step(State(), None) == SwapOp(old(State()), id, source, target)
    {
      hide Consistent, CopyMany, ReleaseMany, View, FieldsOk, Holders, AllOn;
      ghost var held := Held(State());
      SwapKeeps(State(), id, source, target);
      TableHeld(State(), id);
      CopyFits(CacheState(), held, refs, target, |refs|);
      var copies := CopyBlocks(refs, target, held);
      table := WithRow(table, id, copies);
      ReleaseBlocks(refs, held + multiset(copies));
    }

    /** `_swap`: moves a request's blocks to the other device. */
    method SwapRequest(id: RequestId, source: Device, target: Device) returns (error: Option<Error>)
      requires Valid()
      modifies this, gpuQueue, cpuQueue
      ensures Inv(old(State())) && Valid() && Step(State(), error) == SwapOp(old(State()), id, source, target)
    {
      hide Consistent, CopyMany, ReleaseMany, View, FieldsOk, Holders, AllOn;
      var refs := if id in table then table[id] else [];
      var ours := OnDevice(refs, source);
      if !ours { return Some(SimulationStateError); }
      var free := FreeBlocks(target);
      if free < |refs| { return Some(OutOfBlocksError); }
      MoveBlocks(id, refs, source, target);
      error := None;
    }

    // ----- reservations -----

    method ReserveBlocks(n: int) returns (error: Option<Error>)
      requires Valid()
      modifies this, gpuQueue, cpuQueue
      ensures Inv(old(State())) && Valid() && Step(State(), error) == ReserveOp(old(State()), n)
    {
      hide Consistent, TakeMany, ReleaseMany, View, FieldsOk, Holders;
      ghost var held := Held(State());
      ReserveKeeps(State(), n);
      var refs, ok := TakeBlocks(GPU, if n > 0 then n else 0, held);
      if !ok {
        ReleaseBlocks(refs, held + multiset(refs));
        return Some(OutOfBlocksError);
      }
      reserved := reserved + refs;
      error := None;
    }

    method ReleaseReserved(count: Option<int>) returns (error: Option<Error>)
      requires Valid()
      modifies this, gpuQueue, cpuQueue
      ensures Inv(old(State())) && Valid() && Step(State(), error) == ReleaseReservedOp(old(State()), count)
    {
      hide Consistent, ReleaseMany, View, FieldsOk, Holders;
      ReleaseReservedKeeps(State(), count);
      var n := if count.Some? then count.value else |reserved|;
      if n < 0 || n > |reserved| { return Some(SimulationStateError); }
      assert reserved == reserved[..n] + reserved[n..];
      assert multiset(reserved[..n]) <= Held(State());
      ReleaseBlocks(reserved[..n], Held(State()));
      reserved := reserved[n..];
      error := None;
    }
  }
}
