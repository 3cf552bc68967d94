/**
  One step of the paged-attention scheduler on a uniform cache, without speculative tokens, context
  limit or external KV: running requests oldest first, preemption of the youngest, then admissions.
 */
module Scheduling {
  import opened Common
  import opened PrefixKeys
  import opened KvPool
  import opened KvCache
  import opened KvManager
  import opened KvAdmission

  /**
    A request.  `generated` counts output tokens, `computed` the context tokens whose KV is present,
    `scheduled` what the current step computes, `logical` the tokens in its logical blocks;
    `recompute` is set while a preempted context is rebuilt and `pending` while a chunk is left.
   */
  datatype Request = Request(prompt: Prompt, generated: nat, computed: nat, scheduled: nat, logical: nat, recompute: bool, pending: bool)

  datatype Config = Config(budget: Option<nat>, maxSeqs: Option<nat>, occupy: real, threshold: nat, adaptive: bool)

  datatype World = World(
    config: Config,
    arrival: map<RequestId, real>,
    requests: map<RequestId, Request>,
    running: seq<RequestId>,
    waiting: seq<RequestId>,
    kv: Manager,
    capacityBound: bool)

  // ----- requests -----

  const NOBODY := Request(Prompt([], [], 1, 1, Extra("", None, None)), 0, 0, 0, 1, false, false)

  function Get(w: World, id: RequestId): Request {
    if id in w.requests then w.requests[id] else NOBODY
  }

  function ContextLen(r: Request): nat { r.prompt.prefillLen + r.generated }

  predicate ContextBuild(r: Request) { r.generated == 0 || r.recompute }

  predicate Done(r: Request) { r.generated >= r.prompt.decodeLen }

  function LogicalBlocks(blockSize: nat, r: Request): nat {
    if blockSize == 0 then 0 else Div(r.logical + blockSize - 1, blockSize)
  }

  function KvReq(w: World, id: RequestId): Req {
    Req(id, Get(w, id).prompt, LogicalBlocks(w.kv.blockSize, Get(w, id)))
  }

  /** `_step_tokens`: one output token, or as much of the remaining context as limit and budget allow. */
  function StepTokens(r: Request, budget: Option<nat>, limit: nat): nat {
    if !ContextBuild(r) then (if budget.Some? && budget.value < 1 then 0 else 1)
    else
      var remaining := Max(1, ContextLen(r) - r.computed);
      var chunk := if limit > 0 then Min(remaining, limit) else remaining;
      if budget.Some? then Min(chunk, budget.value) else chunk
  }

  function Spend(budget: Option<nat>, tokens: nat): Option<nat> {
    if budget.Some? then Some(if budget.value >= tokens then budget.value - tokens else 0) else None
  }

  // ----- preemption -----

  /** `prepare_recompute`. */
  function Restarted(r: Request): Request {
    r.(recompute := true, computed := 0, scheduled := 0)
  }

  /** `_preempt`: the blocks go back and the request to the front of the waiting queue. */
  ghost function Preempt(w: World, id: RequestId): (v: World)
    requires Inv(w.kv)
    ensures Inv(v.kv)
  {
    ReleaseKeeps(w.kv, id);
    w.(kv := ReleaseOp(w.kv, id), requests := w.requests[id := Restarted(Get(w, id))], waiting := [id] + w.waiting)
  }

  datatype Reserved = Reserved(world: World, queue: seq<RequestId>, preempted: seq<RequestId>, ok: bool)

  /** `_reserve_decode_slot`: preempts the youngest queued requests until a block is free, at last the request itself. */
  ghost function ReserveSlot(w: World, id: RequestId, queue: seq<RequestId>, preempted: seq<RequestId>): (r: Reserved)
    requires Inv(w.kv)
    ensures Inv(r.world.kv) && |r.queue| <= |queue|
    decreases |queue|
  {
    if CanAppend(w.kv, KvReq(w, id), 0) then
      AppendKeeps(w.kv, KvReq(w, id));
      Reserved(w.(kv := AppendOp(w.kv, KvReq(w, id)).after), queue, preempted, true)
    else if queue != [] then
      var victim := queue[|queue| - 1];
      ReserveSlot(Preempt(w, victim), id, queue[..|queue| - 1], preempted + [victim])
    else Reserved(Preempt(w, id), [], preempted + [id], false)
  }

  // ----- running requests -----

  /** A step in the making: `queue` are the running requests not yet looked at. */
  datatype Progress = Progress(
    world: World,
    queue: seq<RequestId>,
    budget: Option<nat>,
    deferred: bool,
    limit: nat,
    scheduled: seq<RequestId>,
    preempted: seq<RequestId>)

  function Kept(p: Progress): Progress
    requires p.queue != []
  {
    p.(world := p.world.(running := p.world.running + [p.queue[0]]), queue := p.queue[1..])
  }

  function Assigned(r: Request, tokens: nat): Request {
    r.(scheduled := tokens, pending := r.computed + tokens < ContextLen(r))
  }

  /** The request gets its tokens and stays running. */
  function Assign(w: World, id: RequestId, tokens: nat): World {
    w.(requests := w.requests[id := Assigned(Get(w, id), tokens)], running := w.running + [id])
  }

  ghost function RunHead(p: Progress): (q: Progress)
    requires Inv(p.world.kv) && p.queue != []
    ensures Inv(q.world.kv) && |q.queue| < |p.queue|
  {
    var id, rest := p.queue[0], p.queue[1..];
    var r := Get(p.world, id);
    var tokens := StepTokens(r, p.budget, p.limit);
    if (p.deferred && r.pending) || tokens == 0 then Kept(p)
    else if ContextBuild(r) then
      p.(world := Assign(p.world, id, tokens), queue := rest, budget := Spend(p.budget, tokens), scheduled := p.scheduled + [id])
    else
      var s := ReserveSlot(p.world, id, rest, p.preempted);
      if !s.ok then p.(world := s.world, queue := s.queue, preempted := s.preempted)
      else p.(world := Assign(s.world, id, tokens), queue := s.queue, budget := Spend(p.budget, tokens),
              scheduled := p.scheduled + [id], preempted := s.preempted)
  }

  ghost function RunQueue(p: Progress): (q: Progress)
    requires Inv(p.world.kv)
    ensures Inv(q.world.kv) && q.queue == []
    decreases |p.queue|
  {
    if p.queue == [] then p else RunQueue(RunHead(p))
  }

  // ----- admissions -----

  function HitTokens(w: World, id: RequestId): nat {
    MulNonNegative(|PlanReuse(w.kv, KvReq(w, id))|, w.kv.blockSize);
    |PlanReuse(w.kv, KvReq(w, id))| * w.kv.blockSize
  }

  /** `_admit` and `start_context_build`: at least the last token is always computed. */
  function Admitted(r: Request, hitTokens: nat): Request {
    var context := ContextLen(r);
    var missing :=
      if r.recompute then Max(0, context - hitTokens)
      else if r.generated == 0 then r.prompt.prefillLen - hitTokens
      else 1;
    r.(computed := Min(Max(0, context - missing), Max(0, context - 1)), scheduled := 0)
  }

  /** Whether the used blocks are below the share `occupy` of all blocks. */
  predicate Below(capacity: nat, free: int, occupy: real) {
    (capacity - free) as real < occupy * capacity as real
  }

  predicate BelowOccupancy(w: World) {
    Below(w.kv.cache.gpu.capacity, NumFree(w.kv.cache.gpu), w.config.occupy)
  }

  /** Whether the loop goes on to try the head of the waiting queue. */
  predicate TriesNext(p: Progress) {
    && p.world.waiting != []
    && (p.budget.Some? ==> p.budget.value > 0)
    && BelowOccupancy(p.world)
    && (p.world.config.maxSeqs.Some? ==> |p.world.running| < p.world.config.maxSeqs.value)
  }

  /** Whether the head of the waiting queue gets in. */
  predicate Admissible(p: Progress)
    requires p.world.waiting != []
  {
    var id := p.world.waiting[0];
    && (p.deferred ==> ContextLen(Get(p.world, id)) - HitTokens(p.world, id) <= 1)
    && CanAllocate(p.world.kv, KvReq(p.world, id))
  }

  ghost function AdmitHead(p: Progress): (q: Progress)
    requires Inv(p.world.kv) && p.world.waiting != []
    ensures Inv(q.world.kv) && |q.world.waiting| < |p.world.waiting|
  {
    var w, id := p.world, p.world.waiting[0];
    AllocateKeeps(w.kv, KvReq(w, id));
    var r := Admitted(Get(w, id), HitTokens(w, id));
    var tokens := StepTokens(r, p.budget, p.limit);
    var v := w.(kv := AllocateOp(w.kv, KvReq(w, id)).after, requests := w.requests[id := r], waiting := w.waiting[1..]);
    p.(world := Assign(v, id, tokens), budget := Spend(p.budget, tokens), scheduled := p.scheduled + [id])
  }

  ghost function AdmitQueue(p: Progress): (q: Progress)
    requires Inv(p.world.kv)
    ensures Inv(q.world.kv)
    decreases |p.world.waiting|
  {
    if TriesNext(p) && Admissible(p) then AdmitQueue(AdmitHead(p)) else p
  }

  // ----- a whole step -----

  function Arrival(w: World, id: RequestId): real {
    if id in w.arrival then w.arrival[id] else 0.0
  }

  /** Puts `id` behind everybody who arrived no later. */
  function InsertByArrival(w: World, sorted: seq<RequestId>, id: RequestId): seq<RequestId> {
    if sorted == [] || Arrival(w, sorted[|sorted| - 1]) <= Arrival(w, id) then sorted + [id]
    else InsertByArrival(w, sorted[..|sorted| - 1], id) + [sorted[|sorted| - 1]]
  }

  /** Stable sort by arrival time. */
  function ByArrival(w: World, ids: seq<RequestId>, n: nat): seq<RequestId>
    requires n <= |ids|
  {
    if n == 0 then [] else InsertByArrival(w, ByArrival(w, ids, n - 1), ids[n - 1])
  }

  predicate Defers(w: World, throttle: bool) {
    throttle && !w.capacityBound && exists i :: 0 <= i < |w.running| && !Get(w, w.running[i]).pending
  }

  /** The effective chunk limit: none for a lone request, at least a fair share of the budget if adaptive. */
  function ChunkLimit(w: World): nat {
    var eligible := |w.running| + |w.waiting|;
    if eligible <= 1 || w.config.threshold == 0 then 0
    else if w.config.adaptive && w.config.budget.Some? && w.config.budget.value > 0
    then Max(w.config.threshold, Div(w.config.budget.value, eligible))
    else w.config.threshold
  }

  function Begin(w: World, throttle: bool): Progress {
    Progress(w.(running := []), ByArrival(w, w.running, |w.running|), w.config.budget, Defers(w, throttle), ChunkLimit(w), [], [])
  }

  /** Running requests first; nobody is admitted in a step that preempted somebody. */
  ghost function Schedule(w: World, throttle: bool): (p: Progress)
    requires Inv(w.kv)
    ensures Inv(p.world.kv)
  {
    var ran := RunQueue(Begin(w, throttle));
    var p := if ran.preempted == [] then AdmitQueue(ran) else ran;
    if ran.preempted == [] && !p.deferred then p.(world := p.world.(capacityBound := p.world.waiting != [])) else p
  }
}
