/** The paged-attention scheduler as it runs, on top of a block manager. */
module PagedSchedulers {
  import opened Common
  import opened PrefixKeys
  import opened KvPool
  import opened KvCache
  import opened KvManager
  import opened FreeQueues
  import opened BlockManagers
  import opened Scheduling
  import opened SchedulingRuns

  class PagedScheduler {
    const config: Config
    const manager: BlockManager
    var arrival: map<RequestId, real>
    var requests: map<RequestId, Request>
    var running: seq<RequestId>
    var waiting: seq<RequestId>
    var capacityBound: bool

    constructor (settings: Config, blocks: BlockManager)
      ensures config == settings && manager == blocks && arrival == map[] && requests == map[] && running == [] && waiting == [] && !capacityBound
    {
      config, manager, arrival, requests, running, waiting, capacityBound := settings, blocks, map[], map[], [], [], false;
    }

    ghost function State(): World
      reads this, manager, manager.gpuQueue, manager.cpuQueue
    {
      World(config, arrival, requests, running, waiting, manager.State(), capacityBound)
    }

    ghost predicate Valid()
      reads this, manager, manager.gpuQueue, manager.cpuQueue
    {
      manager.Valid()
    }

    lemma {:induction false} ManagerInv()
      requires Valid()
      ensures Inv(State().kv)
    {
    }

    lemma {:induction false} ManagerQueues()
      requires Valid()
      ensures manager.gpuQueue.Valid() && manager.cpuQueue.Valid()
    {
    }

    function RequestOf(id: RequestId): Request
      reads this
    {
      if id in requests then requests[id] else NOBODY
    }

    function BlocksOf(id: RequestId): Req
      reads this
    {
      Req(id, RequestOf(id).prompt, LogicalBlocks(manager.blockSize, RequestOf(id)))
    }

    // ----- preemption -----

    /** `_preempt`. */
    method PreemptRequest(id: RequestId)
      requires Valid()
      modifies this, manager, manager.gpuQueue, manager.cpuQueue
      ensures Valid() && Inv(old(State()).kv) && State() == Preempt(old(State()), id)
    {
      hide Inv, ReleaseOp, BlockManager.Valid, BlockManager.CacheState;
      ManagerInv();
      manager.ReleaseRequest(id);
      requests, waiting := requests[id := Restarted(RequestOf(id))], [id] + waiting;
    }

    /** `_reserve_decode_slot`. */
    method ReserveDecodeSlot(id: RequestId, behind: seq<RequestId>, before: seq<RequestId>)
      returns (queue: seq<RequestId>, preempted: seq<RequestId>, ok: bool)
      requires Valid()
      modifies this, manager, manager.gpuQueue, manager.cpuQueue
      ensures Valid() && Inv(old(State()).kv) && Reserved(State(), queue, preempted, ok) == ReserveSlot(old(State()), id, behind, before)
    {
      hide Inv, AppendOp, CanAppend, Preempt, BlockManager.Valid, BlockManager.CacheState;
      ManagerInv();
      ghost var start := State();
      queue, preempted, ok := behind, before, false;
      var can := CanAppendNow(id);
      while !can && queue != []
        invariant Valid() && Inv(State().kv) && (can <==> CanAppend(State().kv, KvReq(State(), id), 0))
        invariant ReserveSlot(State(), id, queue, preempted) == ReserveSlot(start, id, behind, before)
        decreases |queue|
      {
        var victim := queue[|queue| - 1];
        PreemptRequest(victim);
        ManagerInv();
        queue, preempted := queue[..|queue| - 1], preempted + [victim];
        can := CanAppendNow(id);
      }
      if can {
        AppendSlot(id);
        ok := true;
      } else {
        PreemptRequest(id);
        preempted := preempted + [id];
      }
    }

    method CanAppendNow(id: RequestId) returns (can: bool)
      requires Valid()
      ensures can <==> CanAppend(State().kv, KvReq(State(), id), 0)
    {
      hide CanAppend, LogicalBlocks, Consistent;
      can := manager.CanAppendSlot(BlocksOf(id), 0);
    }

    method AppendSlot(id: RequestId)
      requires Valid()
      modifies manager, manager.gpuQueue, manager.cpuQueue
      ensures Valid() && Inv(old(State()).kv) && State() == old(State()).(kv := AppendOp(old(State()).kv, KvReq(old(State()), id)).after)
    {
      hide AppendOp, LogicalBlocks, Inv, BlockManager.Valid, BlockManager.CacheState;
      var error := manager.AppendSlot(BlocksOf(id));
    }

    // ----- running requests -----

    method AssignTokens(id: RequestId, tokens: nat)
      modifies this`requests, this`running
      ensures State() == Assign(old(State()), id, tokens)
    {
      requests, running := requests[id := Assigned(RequestOf(id), tokens)], running + [id];
    }

    /** The loop over the running requests, oldest first. */
    method RunAll(first: seq<RequestId>, tokens: Option<nat>, deferred: bool, limit: nat)
      returns (budget: Option<nat>, scheduled: seq<RequestId>, preempted: seq<RequestId>)
      requires Valid()
      modifies this, manager, manager.gpuQueue, manager.cpuQueue
      ensures Valid() && Inv(old(State()).kv)
      ensures Progress(State(), [], budget, deferred, limit, scheduled, preempted) ==
              RunQueue(Progress(old(State()), first, tokens, deferred, limit, [], []))
    {
      hide Inv, RunHead, BlockManager.Valid, BlockManager.State;
      ManagerInv();
      ghost var start := Progress(State(), first, tokens, deferred, limit, [], []);
      var queue := first;
      budget, scheduled, preempted := tokens, [], [];
      while queue != []
        invariant Valid() && Inv(State().kv)
        invariant RunQueue(Progress(State(), queue, budget, deferred, limit, scheduled, preempted)) == RunQueue(start)
        decreases |queue|
      {
        ghost var before := Progress(State(), queue, budget, deferred, limit, scheduled, preempted);
        queue, budget, scheduled, preempted := RunOne(queue, budget, deferred, limit, scheduled, preempted);
        ManagerInv();
      }
    }

    /** One running request: kept for later, given tokens, or preempted. */
    method RunOne(queue: seq<RequestId>, budget: Option<nat>, deferred: bool, limit: nat, scheduled: seq<RequestId>, preempted: seq<RequestId>)
      returns (rest: seq<RequestId>, left: Option<nat>, now: seq<RequestId>, gone: seq<RequestId>)
      requires Valid() && queue != []
      modifies this, manager, manager.gpuQueue, manager.cpuQueue
      ensures Valid() && Inv(old(State()).kv)
      ensures Progress(State(), rest, left, deferred, limit, now, gone) == RunHead(Progress(old(State()), queue, budget, deferred, limit, scheduled, preempted))
    {
      hide Inv, ReserveSlot, StepTokens, Assign, BlockManager.Valid, BlockManager.State;
      ManagerInv();
      var id := queue[0];
      var r := RequestOf(id);
      var tokens := StepTokens(r, budget, limit);
      rest, left, now, gone := queue[1..], budget, scheduled, preempted;
      if (deferred && r.pending) || tokens == 0 {
        running := running + [id];
      } else if ContextBuild(r) {
        AssignTokens(id, tokens);
        left, now := Spend(budget, tokens), scheduled + [id];
      } else {
        var ok;
        rest, gone, ok := ReserveDecodeSlot(id, queue[1..], preempted);
        if ok {
          AssignTokens(id, tokens);
          left, now := Spend(budget, tokens), scheduled + [id];
        }
      }
    }

    // ----- admissions -----

    method CountHits(id: RequestId) returns (tokens: nat)
      requires Valid()
      ensures tokens == HitTokens(State(), id)
    {
      hide PlanReuse, Consistent, LogicalBlocks;
      var names, hits := manager.PlanHits(BlocksOf(id));
      MulNonNegative(|hits|, manager.blockSize);
      tokens := |hits| * manager.blockSize;
    }

    method HasPlace() returns (below: bool)
      requires Valid()
      ensures below <==> BelowOccupancy(State())
    {
      hide NumFree, BlockManager.Ready, Below;
      ManagerQueues();
      var free := manager.FreeBlocks(GPU);
      below := Below(manager.gpuCapacity, free, config.occupy);
    }

    /** Whether the admission loop goes on and the head of the waiting queue gets in. */
    method MayAdmit(budget: Option<nat>, deferred: bool, limit: nat, scheduled: seq<RequestId>) returns (yes: bool)
      requires Valid()
      ensures var p := Progress(State(), [], budget, deferred, limit, scheduled, []); yes <==> TriesNext(p) && Admissible(p)
    {
      hide BelowOccupancy, HitTokens, CanAllocate, BlockManager.Valid, BlockManager.State, KvReq, Get, ContextLen, RequestOf, BlocksOf;
      ManagerQueues();
      if waiting == [] || (budget.Some? && budget.value == 0) { return false; }
      var below := HasPlace();
      if !below || (config.maxSeqs.Some? && |running| >= config.maxSeqs.value) { return false; }
      var id := waiting[0];
      SameRequest(id);
      if deferred {
        var hit := CountHits(id);
        if ContextLen(RequestOf(id)) - hit > 1 { return false; }
      }
      yes := manager.CanAllocateRequest(BlocksOf(id));
    }

    method AdmitOne(budget: Option<nat>, deferred: bool, limit: nat, scheduled: seq<RequestId>) returns (left: Option<nat>, now: seq<RequestId>)
      requires Valid() && waiting != []
      modifies this, manager, manager.gpuQueue, manager.cpuQueue
      ensures Valid() && Inv(old(State()).kv)
      ensures Progress(State(), [], left, deferred, limit, now, []) == AdmitHead(Progress(old(State()), [], budget, deferred, limit, scheduled, []))
    {
      hide Inv, AllocateOp, StepTokens, Admitted, HitTokens, LogicalBlocks, BlockManager.Ready, BlockManager.CacheState;
      ManagerInv();
      var id := waiting[0];
      var hit := CountHits(id);
      var r := Admitted(RequestOf(id), hit);
      var tokens := StepTokens(r, budget, limit);
      var error := manager.AllocateRequest(BlocksOf(id));
      requests, waiting := requests[id := r], waiting[1..];
      AssignTokens(id, tokens);
      left, now := Spend(budget, tokens), scheduled + [id];
    }

    method AdmitAll(tokens: Option<nat>, deferred: bool, limit: nat, before: seq<RequestId>) returns (budget: Option<nat>, scheduled: seq<RequestId>)
      requires Valid()
      modifies this, manager, manager.gpuQueue, manager.cpuQueue
      ensures Valid() && Inv(old(State()).kv)
      ensures Progress(State(), [], budget, deferred, limit, scheduled, []) ==
              AdmitQueue(Progress(old(State()), [], tokens, deferred, limit, before, []))
    {
      hide Inv, AdmitHead, TriesNext, Admissible, BlockManager.Valid, BlockManager.State;
      ManagerInv();
      ghost var start := Progress(State(), [], tokens, deferred, limit, before, []);
      budget, scheduled := tokens, before;
      var more := MayAdmit(budget, deferred, limit, scheduled);
      TriedWaits(start);
      while more
        invariant Valid() && Inv(State().kv)
        invariant var p := Progress(State(), [], budget, deferred, limit, scheduled, []);
          (more <==> waiting != [] && TriesNext(p) && Admissible(p)) && AdmitQueue(p) == AdmitQueue(start)
        decreases |waiting|
      {
        budget, scheduled := AdmitOne(budget, deferred, limit, scheduled);
        ManagerInv();
        more := MayAdmit(budget, deferred, limit, scheduled);
        TriedWaits(Progress(State(), [], budget, deferred, limit, scheduled, []));
      }
    }

    // ----- a whole step -----

    /** `schedule`: who computes how many tokens next, and who had to make room. */
    method ScheduleStep(throttle: bool) returns (scheduled: seq<RequestId>, preempted: seq<RequestId>)
      requires Valid()
      modifies this, manager, manager.gpuQueue, manager.cpuQueue
      ensures Valid() && Inv(old(State()).kv)
      ensures var p := Schedule(old(State()), throttle); State() == p.world && scheduled == p.scheduled && preempted == p.preempted
    {
      hide Inv, RunQueue, AdmitQueue, ByArrival, Defers, ChunkLimit, BlockManager.Valid, BlockManager.State;
      ManagerInv();
      ghost var start := State();
      var queue := SortByArrival();
      SameRules(throttle);
      var deferred, limit := IsDeferring(throttle), EffectiveLimit();
      running := [];
      var budget;
      budget, scheduled, preempted := RunAll(queue, config.budget, deferred, limit);
      if preempted == [] {
        budget, scheduled := AdmitAll(budget, deferred, limit, scheduled);
        if !deferred { capacityBound := waiting != []; }
      }
    }

    /** Stable sort of the running requests by arrival, one insertion after the other. */
    method SortByArrival() returns (queue: seq<RequestId>)
      ensures queue == ByArrival(State(), running, |running|)
    {
      hide InsertByArrival;
      ghost var w := State();
      queue := [];
      for i := 0 to |running|
        invariant queue == ByArrival(w, running, i)
      {
        queue := InsertSorted(queue, running[i]);
      }
    }

    /** Walks back from the end to the last request that arrived no later. */
    method InsertSorted(sorted: seq<RequestId>, id: RequestId) returns (queue: seq<RequestId>)
      ensures queue == InsertByArrival(State(), sorted, id)
    {
      hide BlockManager.State;
      ghost var w := State();
      var n := |sorted|;
      assert sorted[..n] == sorted && sorted + sorted[n..] == sorted;
      assert InsertByArrival(w, sorted, id) + sorted[n..] == InsertByArrival(w, sorted, id);
      while n > 0 && ArrivalOf(sorted[n - 1]) > ArrivalOf(id)
        invariant 0 <= n <= |sorted|
        invariant InsertByArrival(w, sorted, id) == InsertByArrival(w, sorted[..n], id) + sorted[n..]
      {
        assert sorted[..n][..n - 1] == sorted[..n - 1];
        assert sorted[n - 1..] == [sorted[n - 1]] + sorted[n..];
        n := n - 1;
      }
      queue := sorted[..n] + [id] + sorted[n..];
    }

    lemma {:induction false} SameRequest(id: RequestId)
      ensures RequestOf(id) == Get(State(), id) && BlocksOf(id) == KvReq(State(), id)
    {
      hide BlockManager.CacheState, LogicalBlocks;
    }

    lemma {:induction false} SameRules(throttle: bool)
      ensures IsDeferring(throttle) == Defers(State(), throttle) && EffectiveLimit() == ChunkLimit(State())
    {
      hide BlockManager.State;
      assert forall i :: 0 <= i < |running| ==> RequestOf(running[i]) == Get(State(), running[i]);
    }

    function ArrivalOf(id: RequestId): real
      reads this
    {
      if id in arrival then arrival[id] else 0.0
    }

    function IsDeferring(throttle: bool): bool
      reads this
    {
      throttle && !capacityBound && exists i :: 0 <= i < |running| && !RequestOf(running[i]).pending
    }

    function EffectiveLimit(): nat
      reads this
    {
      var eligible := |running| + |waiting|;
      if eligible <= 1 || config.threshold == 0 then 0
      else if config.adaptive && config.budget.Some? && config.budget.value > 0
      then Max(config.threshold, Div(config.budget.value, eligible))
      else config.threshold
    }

    // ----- after the step -----

    /** `advance` on every scheduled request. */
    method AdvanceScheduled(ids: seq<RequestId>)
      modifies this`requests
      ensures State() == AdvanceAll(old(State()), ids, |ids|)
    {
      hide Advanced, BlockManager.State;
      ghost var start := State();
      for i := 0 to |ids|
        invariant State() == AdvanceAll(start, ids, i)
      {
        SameRequest(ids[i]);
        requests := requests[ids[i] := Advanced(RequestOf(ids[i]))];
      }
    }

    /** `update`, first loop. */
    method CommitScheduled(ids: seq<RequestId>)
      requires Valid()
      modifies manager
      ensures Valid() && Inv(old(State()).kv) && State() == CommitAll(old(State()), ids, |ids|)
    {
      hide Inv, CommitInputOp, BlockManager.CacheState, BlockManager.Ready;
      ManagerInv();
      ghost var start := State();
      for i := 0 to |ids|
        invariant Valid() && Inv(start.kv) && State() == CommitAll(start, ids, i)
      {
        if RequestOf(ids[i]).generated > 0 { manager.CommitInputCache(ids[i]); }
      }
    }

    /** `update`, second loop. */
    method FreeFinished(ids: seq<RequestId>)
      requires Valid()
      modifies manager, manager.gpuQueue, manager.cpuQueue
      ensures Valid() && Inv(old(State()).kv) && State() == FreeAll(old(State()), ids, |ids|)
    {
      hide Inv, FreeOp, Done, BlockManager.CacheState, BlockManager.Ready, LogicalBlocks;
      ManagerInv();
      ghost var start := State();
      for i := 0 to |ids|
        invariant Valid() && Inv(start.kv) && State() == FreeAll(start, ids, i)
      {
        if Done(RequestOf(ids[i])) { manager.FreeRequest(BlocksOf(ids[i])); }
      }
    }

    method DropFinished()
      modifies this`running
      ensures State() == old(State()).(running := Unfinished(old(State()), old(running), |old(running)|))
    {
      hide Done, BlockManager.State;
      ghost var start := State();
      var kept: seq<RequestId>, all := [], running;
      for i := 0 to |all|
        invariant State() == start && kept == Unfinished(start, all, i)
      {
        SameRequest(all[i]);
        if !Done(RequestOf(all[i])) { kept := kept + [all[i]]; }
      }
      running := kept;
    }

    /** The scheduled requests have been computed: they advance, publish their blocks, and leave when done. */
    method CompleteStep(ids: seq<RequestId>)
      requires Valid()
      modifies this, manager, manager.gpuQueue, manager.cpuQueue
      ensures Valid() && Inv(old(State()).kv) && State() == Complete(old(State()), ids)
    {
      hide Inv, AdvanceAll, CommitAll, FreeAll, Unfinished, BlockManager.State, BlockManager.Valid;
      ManagerInv();
      AdvanceScheduled(ids);
      CommitScheduled(ids);
      FreeFinished(ids);
      DropFinished();
    }

    // ----- events -----

    /** A request arrives, the engine takes a step, or a request is cancelled. */
    method Handle(e: Event)
      requires Valid()
      modifies this, manager, manager.gpuQueue, manager.cpuQueue
      ensures Valid() && Inv(old(State()).kv) && State() == Happen(old(State()), e)
    {
      hide Inv, Schedule, Complete, ReleaseOp, BlockManager.CacheState, BlockManager.Ready;
      ManagerInv();
      match e {
        case Arrive(id, prompt, time) =>
          requests, arrival, waiting := requests[id := NewRequest(prompt)], arrival[id := time], waiting + [id];
        case Tick(throttle) =>
          var scheduled, preempted := ScheduleStep(throttle);
          CompleteStep(scheduled);
        case Cancel(id) =>
          manager.ReleaseRequest(id);
          running, waiting := Without(running, id), Without(waiting, id);
      }
    }

    /** The scheduler's state after any run of events is that of the model. */
    method HandleAll(events: seq<Event>)
      requires Valid()
      modifies this, manager, manager.gpuQueue, manager.cpuQueue
      ensures Valid() && Inv(old(State()).kv) && State() == Run(old(State()), events)
    {
      hide Inv, Happen, BlockManager.State, BlockManager.Valid;
      ManagerInv();
      ghost var start := State();
      for i := 0 to |events|
        invariant Valid() && Inv(start.kv) && Inv(State().kv) && Run(State(), events[i..]) == Run(start, events)
      {
        assert events[i..][0] == events[i] && events[i..][1..] == events[i + 1..];
        Handle(events[i]);
        ManagerInv();
      }
    }
  }

  lemma {:induction false} TriedWaits(p: Progress)
    ensures TriesNext(p) ==> p.world.waiting != []
  {
  }
}
