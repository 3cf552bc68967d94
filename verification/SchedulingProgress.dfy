/** Why a step always makes progress, and why it does not run more requests than it may. */
module SchedulingProgress {
  import opened Common
  import opened KvPool
  import opened KvCache
  import opened KvManager
  import opened KvCapacity
  import opened Scheduling
  import opened SchedulingSteps
  import opened SchedulingResults

  // ----- blocks in use -----

  /** The GPU blocks in use among the first `n`. */
  ghost function InUseRefs(blocks: seq<Block>, n: nat): set<Ref>
    requires n <= |blocks|
  {
    if n == 0 then {} else InUseRefs(blocks, n - 1) + (if blocks[n - 1].refs > 0 then {Ref(GPU, n - 1)} else {})
  }

  lemma {:induction false} InUseCount(blocks: seq<Block>, n: nat, r: Ref)
    requires n <= |blocks|
    ensures |InUseRefs(blocks, n)| == Busy(blocks, n)
    ensures r in InUseRefs(blocks, n) <==> r.device.GPU? && r.number < n && blocks[r.number].refs > 0
    decreases n
  {
    if n > 0 {
      InUseCount(blocks, n - 1, r);
      InUseCount(blocks, n - 1, Ref(GPU, n - 1));
    }
  }

  lemma {:induction false} SubsetCount(s: set<Ref>, held: multiset<Ref>)
    requires forall r :: r in s ==> r in held
    ensures |s| <= |held|
    decreases |s|
  {
    if s != {} {
      var r :| r in s;
      SubsetCount(s - {r}, held - multiset{r});
    }
  }

  /** No more blocks are in use than are held. */
  lemma {:induction false} BusyAtMostHeld(c: Cache, held: multiset<Ref>)
    requires Consistent(c, held)
    ensures Busy(c.gpu.blocks, |c.gpu.blocks|) <= |held|
  {
    var blocks := c.gpu.blocks;
    InUseCount(blocks, |blocks|, Ref(GPU, 0));
    forall r | r in InUseRefs(blocks, |blocks|) ensures r in held {
      InUseCount(blocks, |blocks|, r);
      assert Refs(c, r) == held[r];
    }
    SubsetCount(InUseRefs(blocks, |blocks|), held);
  }

  lemma {:induction false} NobodyHolds(table: map<RequestId, seq<Ref>>)
    requires forall id :: id in table ==> table[id] == []
    ensures Holders(table) == multiset{}
    decreases |table|
  {
    if |table| > 0 {
      var id := HoldersFirst(table);
      NobodyHolds(table - {id});
    }
  }

  lemma {:induction false} OnlyOneHolds(m: Manager, id: RequestId)
    requires m.reserved == [] && forall other :: other != id ==> Table(m, other) == []
    ensures Held(m) == multiset(Table(m, id))
  {
    HoldersSet(m.table, id, []);
    forall other | other in m.table - {id} ensures (m.table - {id})[other] == [] { assert Table(m, other) == []; }
    NobodyHolds(m.table - {id});
  }

  /** If nobody else holds blocks, the next block of a request that fits the pool is free. */
  lemma {:induction false} LoneRequestFits(w: World, id: RequestId)
    requires WorldOk(w, [id]) && w.running == [] && w.kv.reserved == []
    requires LogicalBlocks(w.kv.blockSize, Get(w, id)) <= w.kv.cache.gpu.capacity
    ensures CanAppend(w.kv, KvReq(w, id), 0)
  {
    forall other | other != id ensures Table(w.kv, other) == [] { assert IdOk(w, [id], other); }
    OnlyOneHolds(w.kv, id);
    BusyAtMostHeld(w.kv.cache, Held(w.kv));
    ConsistentPool(w.kv.cache, Held(w.kv), GPU);
    Conservation(w.kv.cache.gpu);
    assert |multiset(Table(w.kv, id))| == |Table(w.kv, id)|;
  }

  // ----- capacity does not change -----

  lemma {:induction false} PreemptCapacity(w: World, id: RequestId)
    requires Inv(w.kv)
    ensures Preempt(w, id).kv.cache.gpu.capacity == w.kv.cache.gpu.capacity
  {
    hide Consistent, ReleaseOp;
    ReleasePlant(w.kv, id);
  }

  // ----- the oldest request -----

  /** With nobody older around, preempting everyone younger must free a block. */
  lemma {:induction false} OldestGetsSlot(w: World, id: RequestId, queue: seq<RequestId>, preempted: seq<RequestId>)
    requires WorldOk(w, [id] + queue) && w.running == [] && w.kv.reserved == []
    requires LogicalBlocks(w.kv.blockSize, Get(w, id)) <= w.kv.cache.gpu.capacity
    ensures ReserveSlot(w, id, queue, preempted).ok
    decreases |queue|
  {
    hide Inv, IdOk, Preempt, AppendOp, CanAppend, Everyone, LogicalBlocks;
    if queue == [] {
      assert [id] + queue == [id];
      LoneRequestFits(w, id);
    } else if !CanAppend(w.kv, KvReq(w, id), 0) {
      var front, victim := queue[..|queue| - 1], queue[|queue| - 1];
      assert queue == front + [victim];
      assert multiset([id] + queue) == multiset([id] + front) + multiset{victim} by { assert [id] + queue == ([id] + front) + [victim]; }
      VictimDiffers(w, [id] + queue, id, victim);
      PreemptKeeps(w, [id] + queue, [id] + front, victim);
      PreemptSetting(w, victim);
      PreemptCapacity(w, victim);
      assert Spared(w, Preempt(w, victim), id);
      OldestGetsSlot(Preempt(w, victim), id, front, preempted + [victim]);
    }
  }

  lemma {:induction false} RunQueueGrows(p: Progress)
    requires Inv(p.world.kv)
    ensures forall id :: id in p.scheduled ==> id in RunQueue(p).scheduled
    decreases |p.queue|
  {
    hide Inv;
    if p.queue != [] {
      var q := RunHead(p);
      assert forall id :: id in p.scheduled ==> id in q.scheduled;
      hide RunHead;
      RunQueueGrows(q);
    }
  }

  lemma {:induction false} AdmitQueueGrows(p: Progress)
    requires Inv(p.world.kv)
    ensures forall id :: id in p.scheduled ==> id in AdmitQueue(p).scheduled
    decreases |p.world.waiting|
  {
    hide Inv, TriesNext, Admissible;
    if p.world.waiting != [] && TriesNext(p) && Admissible(p) {
      var q := AdmitHead(p);
      assert forall id :: id in p.scheduled ==> id in q.scheduled;
      hide AdmitHead;
      AdmitQueueGrows(q);
    }
  }

  lemma {:induction false} HeadIsScheduled(p: Progress)
    requires WorldOk(p.world, p.queue) && p.queue != [] && !p.deferred && (p.budget.Some? ==> p.budget.value > 0)
    requires p.world.running == [] && p.world.kv.reserved == []
    requires LogicalBlocks(p.world.kv.blockSize, Get(p.world, p.queue[0])) <= p.world.kv.cache.gpu.capacity
    ensures p.queue[0] in RunHead(p).scheduled
  {
    var id, rest := p.queue[0], p.queue[1..];
    assert p.queue == [id] + rest;
    HeadOk(p.world, p.queue);
    TokensFit(Get(p.world, id), p.budget, p.limit);
    hide Inv, IdOk, StepTokens, LogicalBlocks, ReserveSlot;
    if !ContextBuild(Get(p.world, id)) { OldestGetsSlot(p.world, id, rest, p.preempted); }
  }

  /**
    Progress: without throttling, with a budget of at least one token and nothing reserved, the oldest
    running request is scheduled whenever its logical blocks fit into the pool at all.
   */
  lemma {:induction false} OldestRuns(w: World, oldest: RequestId)
    requires WorldOk(w, []) && (w.config.budget.Some? ==> w.config.budget.value >= 1) && w.kv.reserved == []
    requires w.running != [] && oldest == ByArrival(w, w.running, |w.running|)[0]
    requires LogicalBlocks(w.kv.blockSize, Get(w, oldest)) <= w.kv.cache.gpu.capacity
    ensures oldest in Schedule(w, false).scheduled
  {
    hide IdOk, RunHead, AdmitQueue, LogicalBlocks, SchedulingSteps.ScheduledOk, RunQueue, ByArrival, Inv;
    var p := Begin(w, false);
    BeginOk(w, false);
    OldestFirst(w);
    assert Get(p.world, oldest) == Get(w, oldest);
    HeadIsScheduled(p);
    RunFirst(p);
    var ran := RunQueue(p);
    AdmitQueueGrows(ran);
  }

  lemma {:induction false} RunFirst(p: Progress)
    requires Inv(p.world.kv) && p.queue != [] && p.queue[0] in RunHead(p).scheduled
    ensures p.queue[0] in RunQueue(p).scheduled
  {
    hide Inv, RunHead;
    RunQueueGrows(RunHead(p));
  }

  lemma {:induction false} OldestFirst(w: World)
    requires w.running != []
    ensures ByArrival(w, w.running, |w.running|) != []
    ensures forall id :: id in w.running ==> Arrival(w, ByArrival(w, w.running, |w.running|)[0]) <= Arrival(w, id)
  {
    var queue := ByArrival(w, w.running, |w.running|);
    ByArrivalPermutes(w, w.running, |w.running|);
    ByArrivalSorts(w, w.running, |w.running|);
    assert w.running[..|w.running|] == w.running;
    assert |multiset(queue)| == |queue|;
    forall id | id in w.running ensures Arrival(w, queue[0]) <= Arrival(w, id) {
      assert id in multiset(w.running);
      assert id in multiset(queue);
      var k :| 0 <= k < |queue| && queue[k] == id;
    }
  }

  // ----- how many run -----

  lemma {:induction false} RunHeadCount(p: Progress)
    requires Inv(p.world.kv) && p.queue != []
    ensures |RunHead(p).world.running| + |RunHead(p).queue| <= |p.world.running| + |p.queue|
    ensures RunHead(p).world.config == p.world.config
  {
    hide Inv, StepTokens, ReserveSlot;
    ReserveRunning(p.world, p.queue[0], p.queue[1..], p.preempted);
  }

  lemma {:induction false} ReserveRunning(w: World, id: RequestId, queue: seq<RequestId>, preempted: seq<RequestId>)
    requires Inv(w.kv)
    ensures var r := ReserveSlot(w, id, queue, preempted); r.world.running == w.running && r.world.config == w.config
    decreases |queue|
  {
    hide Inv, AppendOp, CanAppend;
    if !CanAppend(w.kv, KvReq(w, id), 0) && queue != [] {
      ReserveRunning(Preempt(w, queue[|queue| - 1]), id, queue[..|queue| - 1], preempted + [queue[|queue| - 1]]);
    }
  }

  lemma {:induction false} RunQueueCount(p: Progress)
    requires Inv(p.world.kv)
    ensures |RunQueue(p).world.running| <= |p.world.running| + |p.queue| && RunQueue(p).world.config == p.world.config
    decreases |p.queue|
  {
    hide Inv;
    if p.queue != [] {
      RunHeadCount(p);
      hide RunHead;
      RunQueueCount(RunHead(p));
    }
  }

  lemma {:induction false} AdmitQueueCount(p: Progress)
    requires Inv(p.world.kv) && p.world.config.maxSeqs.Some?
    ensures |AdmitQueue(p).world.running| <= Max(|p.world.running|, p.world.config.maxSeqs.value)
    decreases |p.world.waiting|
  {
    hide Inv, Admissible, BelowOccupancy;
    if TriesNext(p) && Admissible(p) {
      var q := AdmitHead(p);
      assert |q.world.running| == |p.world.running| + 1 && q.world.config == p.world.config;
      hide AdmitHead;
      AdmitQueueCount(q);
    }
  }

  /** Admissions respect the limit on running requests. */
  lemma {:induction false} ByArrivalCount(w: World, ids: seq<RequestId>)
    ensures |ByArrival(w, ids, |ids|)| == |ids|
  {
    hide ByArrival;
    ByArrivalPermutes(w, ids, |ids|);
    assert ids[..|ids|] == ids;
    assert |multiset(ByArrival(w, ids, |ids|))| == |multiset(ids)|;
  }

  lemma {:induction false} StepRespectsLimit(w: World, throttle: bool)
    requires WorldOk(w, []) && w.config.maxSeqs.Some?
    ensures |Schedule(w, throttle).world.running| <= Max(|w.running|, w.config.maxSeqs.value)
  {
    hide IdOk, RunQueue, AdmitQueue, ByArrival, Inv;
    var p := Begin(w, throttle);
    ByArrivalCount(w, w.running);
    RunQueueCount(p);
    AdmitQueueCount(RunQueue(p));
  }
}
