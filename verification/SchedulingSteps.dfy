/** What every part of a scheduling step keeps: nobody is lost, and whoever holds blocks holds the right number. */
module SchedulingSteps {
  import opened Common
  import opened KvPool
  import opened KvCache
  import opened KvManager
  import opened KvAdmission
  import opened Scheduling

  /** Unfinished, with its context computed up to the last token unless it is being built. */
  predicate RequestOk(r: Request) {
    && r.prompt.prefillLen >= 1 && r.logical == ContextLen(r) && !Done(r)
    && r.computed < ContextLen(r)
    && (!ContextBuild(r) ==> r.computed == ContextLen(r) - 1)
  }

  /** A context under construction has all its blocks; a decoding request may lack the newest one. */
  predicate HoldsOk(w: World, id: RequestId) {
    var n, needed := |Table(w.kv, id)|, LogicalBlocks(w.kv.blockSize, Get(w, id));
    if ContextBuild(Get(w, id)) then n == needed else needed - 1 <= n <= needed
  }

  ghost function Everyone(w: World, queue: seq<RequestId>): multiset<RequestId> {
    multiset(w.running) + multiset(queue) + multiset(w.waiting)
  }

  ghost predicate IdOk(w: World, queue: seq<RequestId>, id: RequestId) {
    && Everyone(w, queue)[id] <= 1
    && (id in Everyone(w, queue) ==> id in w.requests && RequestOk(w.requests[id]))
    && (if id in w.running || id in queue then HoldsOk(w, id) else Table(w.kv, id) == [])
  }

  /** Holds at every point of a step; `queue` are running requests taken out of `running` for the moment. */
  ghost predicate WorldOk(w: World, queue: seq<RequestId>) {
    Inv(w.kv) && w.kv.blockSize > 0 && forall id :: IdOk(w, queue, id)
  }

  // ----- what block operations do to the table -----

  lemma {:induction false} ReleaseTable(m: Manager, id: RequestId, other: RequestId)
    requires Inv(m)
    ensures Table(ReleaseOp(m, id), other) == if other == id then [] else Table(m, other)
    ensures ReleaseOp(m, id).blockSize == m.blockSize && ReleaseOp(m, id).reserved == m.reserved
  {
    hide Inv, ReleaseMany;
  }

  lemma {:induction false} AppendTable(m: Manager, req: Req, other: RequestId)
    requires Inv(m) && CanAppend(m, req, 0)
    ensures AppendOp(m, req).error.None? && AppendOp(m, req).after.blockSize == m.blockSize
    ensures AppendOp(m, req).after.reserved == m.reserved
    ensures other != req.id ==> Table(AppendOp(m, req).after, other) == Table(m, other)
    ensures |Table(AppendOp(m, req).after, req.id)| ==
            |Table(m, req.id)| + (if |Table(m, req.id)| < req.logicalBlocks then 1 else 0)
  {
    hide Consistent, PoolOk, Allocate;
  }

  lemma {:induction false} AllocateTable(m: Manager, req: Req, other: RequestId)
    requires Inv(m) && CanAllocate(m, req) && Table(m, req.id) == []
    ensures AllocateOp(m, req).error.None? && AllocateOp(m, req).after.blockSize == m.blockSize
    ensures AllocateOp(m, req).after.reserved == m.reserved
    ensures other != req.id ==> Table(AllocateOp(m, req).after, other) == Table(m, other)
    ensures |Table(AllocateOp(m, req).after, req.id)| == Max(|PlanReuse(m, req)|, req.logicalBlocks)
  {
    hide Inv, Gather, MarkMany, PlanReuse, RequestKeys, IsHit;
    AdmissionSound(m, req);
    AllocateDone(m, req, RequestKeys(m.blockSize, req.prompt), PlanReuse(m, req), Gather(m, req));
  }

  // ----- preemption -----

  lemma {:induction false} PreemptKeeps(w: World, queue: seq<RequestId>, rest: seq<RequestId>, id: RequestId)
    requires WorldOk(w, queue) && multiset(queue) == multiset(rest) + multiset{id}
    ensures WorldOk(Preempt(w, id), rest) && Everyone(Preempt(w, id), rest) == Everyone(w, queue)
  {
    var v := Preempt(w, id);
    assert Everyone(v, rest) == Everyone(w, queue) by { assert multiset([id] + w.waiting) == multiset{id} + multiset(w.waiting); }
    forall other ensures IdOk(v, rest, other) {
      assert IdOk(w, queue, other) && IdOk(w, queue, id);
      ReleaseTable(w.kv, id, other);
      assert other in queue <==> other in multiset(queue);
      assert other in rest <==> other in multiset(rest);
      assert id in multiset(queue);
    }
  }

  lemma {:induction false} AppendKeepsWorld(w: World, queue: seq<RequestId>, id: RequestId, v: World)
    requires WorldOk(w, queue) && id in queue && !ContextBuild(Get(w, id)) && CanAppend(w.kv, KvReq(w, id), 0)
    requires v == w.(kv := AppendOp(w.kv, KvReq(w, id)).after)
    ensures WorldOk(v, queue) && |Table(v.kv, id)| == LogicalBlocks(v.kv.blockSize, Get(v, id))
  {
    hide Inv, AppendOp, CanAppend;
    AppendKeeps(w.kv, KvReq(w, id));
    forall other ensures IdOk(v, queue, other) {
      assert IdOk(w, queue, other) && IdOk(w, queue, id);
      AppendTable(w.kv, KvReq(w, id), other);
    }
    assert IdOk(w, queue, id);
    AppendTable(w.kv, KvReq(w, id), id);
  }

  /** Everything about a request but its progress stays the same. */
  ghost predicate SameSetting(w: World, v: World) {
    v.config == w.config && v.arrival == w.arrival && v.kv.blockSize == w.kv.blockSize && v.kv.reserved == w.kv.reserved
  }

  ghost predicate Spared(w: World, v: World, other: RequestId) {
    Get(v, other) == Get(w, other) && Table(v.kv, other) == Table(w.kv, other)
  }

  lemma {:induction false} PreemptSetting(w: World, id: RequestId)
    requires Inv(w.kv)
    ensures SameSetting(w, Preempt(w, id)) && Preempt(w, id).running == w.running
    ensures forall other :: other != id ==> Spared(w, Preempt(w, id), other)
  {
    hide Inv, ReleaseOp;
    ReleaseTable(w.kv, id, id);
    var v := Preempt(w, id);
    forall other | other != id ensures Spared(w, v, other) { ReleaseTable(w.kv, id, other); }
  }

  /** What remains of the queue is a prefix; the rest was preempted. */
  ghost predicate Shortened(queue: seq<RequestId>, rest: seq<RequestId>, before: seq<RequestId>, after: seq<RequestId>, extra: multiset<RequestId>) {
    && |rest| <= |queue| && rest == queue[..|rest|]
    && multiset(after) + multiset(rest) == multiset(before) + multiset(queue) + extra
  }

  /** Whoever is not in the queue and not in hand is left alone. */
  ghost predicate OthersSpared(w: World, v: World, id: RequestId, queue: seq<RequestId>) {
    forall other :: other != id && other !in queue ==> Spared(w, v, other)
  }

  ghost predicate ReserveOk(w: World, id: RequestId, queue: seq<RequestId>, preempted: seq<RequestId>, r: Reserved) {
    && SameSetting(w, r.world) && r.world.running == w.running && OthersSpared(w, r.world, id, queue)
    && Shortened(queue, r.queue, preempted, r.preempted, if r.ok then multiset{} else multiset{id})
    && (r.ok ==> && WorldOk(r.world, [id] + r.queue) && Everyone(r.world, [id] + r.queue) == Everyone(w, [id] + queue)
                 && |Table(r.world.kv, id)| == LogicalBlocks(r.world.kv.blockSize, Get(r.world, id)) && Get(r.world, id) == Get(w, id))
    && (!r.ok ==> r.queue == [] && WorldOk(r.world, []) && Everyone(r.world, []) == Everyone(w, [id] + queue))
  }

  lemma {:induction false} ReserveFits(w: World, id: RequestId, queue: seq<RequestId>, preempted: seq<RequestId>)
    requires WorldOk(w, [id] + queue) && !ContextBuild(Get(w, id)) && CanAppend(w.kv, KvReq(w, id), 0)
    ensures ReserveOk(w, id, queue, preempted, ReserveSlot(w, id, queue, preempted))
  {
    hide Inv, IdOk, Preempt, AppendOp;
    AppendKeeps(w.kv, KvReq(w, id));
    AppendTable(w.kv, KvReq(w, id), id);
    AppendKeepsWorld(w, [id] + queue, id, w.(kv := AppendOp(w.kv, KvReq(w, id)).after));
    assert queue[..|queue|] == queue;
    forall other | other != id ensures Table(AppendOp(w.kv, KvReq(w, id)).after, other) == Table(w.kv, other) {
      AppendTable(w.kv, KvReq(w, id), other);
    }
  }

  lemma {:induction false} ReserveGivesUp(w: World, id: RequestId, preempted: seq<RequestId>)
    requires WorldOk(w, [id] + []) && !CanAppend(w.kv, KvReq(w, id), 0)
    ensures ReserveOk(w, id, [], preempted, ReserveSlot(w, id, [], preempted))
  {
    hide Inv, IdOk, Preempt, AppendOp;
    assert multiset([id] + []) == multiset([]) + multiset{id} by { assert [id] + [] == [id]; }
    PreemptKeeps(w, [id] + [], [], id);
    PreemptSetting(w, id);
  }

  /** One victim more. */
  lemma {:induction false} ReserveAfter(w: World, v: World, id: RequestId, queue: seq<RequestId>, front: seq<RequestId>, victim: RequestId,
                                        preempted: seq<RequestId>, r: Reserved)
    requires queue == front + [victim] && SameSetting(w, v) && v.running == w.running && Get(v, id) == Get(w, id)
    requires forall other :: other != victim ==> Spared(w, v, other)
    requires Everyone(v, [id] + front) == Everyone(w, [id] + queue)
    requires ReserveOk(v, id, front, preempted + [victim], r)
    ensures ReserveOk(w, id, queue, preempted, r)
  {
    hide WorldOk, Everyone, Get, Table;
    forall other | other != id && other !in queue ensures Spared(w, r.world, other) {
      assert Spared(w, v, other) && Spared(v, r.world, other);
    }
    assert multiset(queue) == multiset(front) + multiset{victim};
    assert multiset(preempted + [victim]) == multiset(preempted) + multiset{victim};
    assert queue[..|r.queue|] == front[..|r.queue|];
  }

  lemma {:induction false} ReserveSlotKeeps(w: World, id: RequestId, queue: seq<RequestId>, preempted: seq<RequestId>)
    requires WorldOk(w, [id] + queue) && !ContextBuild(Get(w, id))
    ensures ReserveOk(w, id, queue, preempted, ReserveSlot(w, id, queue, preempted))
    decreases |queue|
  {
    hide Inv, IdOk, Preempt, AppendOp, ReserveOk, CanAppend, Everyone;
    if CanAppend(w.kv, KvReq(w, id), 0) {
      ReserveFits(w, id, queue, preempted);
    } else if queue != [] {
      var front, victim := queue[..|queue| - 1], queue[|queue| - 1];
      assert queue == front + [victim];
      assert multiset([id] + queue) == multiset([id] + front) + multiset{victim} by { assert [id] + queue == ([id] + front) + [victim]; }
      VictimDiffers(w, [id] + queue, id, victim);
      PreemptKeeps(w, [id] + queue, [id] + front, victim);
      PreemptSetting(w, victim);
      assert Spared(w, Preempt(w, victim), id);
      ReserveSlotKeeps(Preempt(w, victim), id, front, preempted + [victim]);
      ReserveAfter(w, Preempt(w, victim), id, queue, front, victim, preempted, ReserveSlot(w, id, queue, preempted));
    } else {
      ReserveGivesUp(w, id, preempted);
    }
  }

  lemma {:induction false} VictimDiffers(w: World, hand: seq<RequestId>, id: RequestId, victim: RequestId)
    requires WorldOk(w, hand) && |hand| >= 2 && hand[0] == id && hand[|hand| - 1] == victim
    ensures victim != id
  {
    assert IdOk(w, hand, id);
    assert hand == [id] + hand[1..|hand| - 1] + [victim];
  }

  // ----- running requests -----

  /** A scheduled request gets at least one token and no more than it has left; a decoding one has all its blocks. */
  predicate ScheduledOk(w: World, id: RequestId) {
    var r := Get(w, id);
    && 1 <= r.scheduled <= ContextLen(r) - r.computed
    && (!ContextBuild(r) ==> r.scheduled == 1 && |Table(w.kv, id)| == LogicalBlocks(w.kv.blockSize, r))
  }

  function TokenSum(w: World, ids: seq<RequestId>, n: nat): nat
    requires n <= |ids|
  {
    if n == 0 then 0 else TokenSum(w, ids, n - 1) + Get(w, ids[n - 1]).scheduled
  }

  /** The step so far: everyone is still there, and the tokens given out and the budget left add up to the step's budget. */
  ghost predicate ProgressOk(p: Progress, everyone: multiset<RequestId>, budget: Option<nat>) {
    && WorldOk(p.world, p.queue) && Everyone(p.world, p.queue) == everyone
    && (forall k :: 0 <= k < |p.scheduled| ==> p.scheduled[k] in p.world.running && ScheduledOk(p.world, p.scheduled[k]))
    && multiset(p.scheduled) <= multiset(p.world.running)
    && multiset(p.preempted) <= multiset(p.world.waiting)
    && (budget.Some? <==> p.budget.Some?)
    && (budget.Some? ==> TokenSum(p.world, p.scheduled, |p.scheduled|) + p.budget.value == budget.value)
  }

  lemma {:induction false} SameTokens(w: World, v: World, ids: seq<RequestId>, n: nat)
    requires n <= |ids| && forall k :: 0 <= k < n ==> Get(v, ids[k]) == Get(w, ids[k])
    ensures TokenSum(v, ids, n) == TokenSum(w, ids, n)
    decreases n
  {
    if n > 0 { SameTokens(w, v, ids, n - 1); }
  }

  lemma {:induction false} TokensOfPrefix(w: World, ids: seq<RequestId>, all: seq<RequestId>, n: nat)
    requires n <= |ids| <= |all| && all[..|ids|] == ids
    ensures TokenSum(w, all, n) == TokenSum(w, ids, n)
    decreases n
  {
    if n > 0 {
      assert all[n - 1] == ids[n - 1];
      TokensOfPrefix(w, ids, all, n - 1);
    }
  }

  /** `StepTokens` fits the budget and what is left to compute. */
  lemma {:induction false} TokensFit(r: Request, budget: Option<nat>, limit: nat)
    requires RequestOk(r)
    ensures StepTokens(r, budget, limit) <= ContextLen(r) - r.computed
    ensures budget.Some? ==> StepTokens(r, budget, limit) <= budget.value
    ensures !ContextBuild(r) ==> StepTokens(r, budget, limit) <= 1
    ensures (budget.Some? ==> budget.value > 0) ==> StepTokens(r, budget, limit) >= 1
  {
  }

  lemma {:induction false} KeptKeeps(p: Progress, everyone: multiset<RequestId>, budget: Option<nat>)
    requires ProgressOk(p, everyone, budget) && p.queue != []
    ensures ProgressOk(Kept(p), everyone, budget)
  {
    hide Inv, IdOk;
    var q := Kept(p);
    HeadMoves(p.world, p.queue, q.world, q.queue);
    forall other ensures IdOk(q.world, q.queue, other) {
      assert IdOk(p.world, p.queue, other);
      KeptId(p, other);
    }
    SameTokens(p.world, q.world, p.scheduled, |p.scheduled|);
    forall k | 0 <= k < |q.scheduled| ensures q.scheduled[k] in q.world.running && ScheduledOk(q.world, q.scheduled[k]) {
      assert ScheduledOk(p.world, p.scheduled[k]);
    }
    assert multiset(q.world.running) == multiset(p.world.running) + multiset{p.queue[0]};
  }

  lemma {:induction false} KeptId(p: Progress, id: RequestId)
    requires p.queue != [] && IdOk(p.world, p.queue, id) && Everyone(Kept(p).world, Kept(p).queue) == Everyone(p.world, p.queue)
    ensures IdOk(Kept(p).world, Kept(p).queue, id)
  {
    hide LogicalBlocks, Everyone;
    HeadMember(p.world, p.queue, Kept(p).world, Kept(p).queue, id);
  }

  /** The scheduled requests and the sums do not notice a reservation. */
  lemma {:induction false} ReserveProgress(p: Progress, s: Reserved, q: Progress, everyone: multiset<RequestId>, budget: Option<nat>)
    requires ProgressOk(p, everyone, budget) && p.queue != [] && ReserveOk(p.world, p.queue[0], p.queue[1..], p.preempted, s)
    requires q == p.(world := s.world, queue := if s.ok then [p.queue[0]] + s.queue else [], preempted := s.preempted)
    ensures ProgressOk(q, everyone, budget)
  {
    hide WorldOk, HoldsOk;
    var id, rest := p.queue[0], p.queue[1..];
    assert p.queue == [id] + rest;
    forall k | 0 <= k < |p.scheduled| ensures Spared(p.world, s.world, p.scheduled[k]) {
      NotQueuedTwice(p, everyone, budget, p.scheduled[k]);
    }
    SameTokens(p.world, q.world, p.scheduled, |p.scheduled|);
    forall k | 0 <= k < |q.scheduled| ensures q.scheduled[k] in q.world.running && ScheduledOk(q.world, q.scheduled[k]) {
      assert ScheduledOk(p.world, p.scheduled[k]) && Spared(p.world, s.world, p.scheduled[k]);
    }
    PreemptedWait(p, s, q, everyone);
  }

  lemma {:induction false} PreemptedWait(p: Progress, s: Reserved, q: Progress, everyone: multiset<RequestId>)
    requires p.queue != [] && ReserveOk(p.world, p.queue[0], p.queue[1..], p.preempted, s)
    requires Everyone(p.world, p.queue) == everyone && multiset(p.preempted) <= multiset(p.world.waiting)
    requires q == p.(world := s.world, queue := if s.ok then [p.queue[0]] + s.queue else [], preempted := s.preempted)
    ensures multiset(q.preempted) <= multiset(q.world.waiting)
  {
    hide WorldOk, HoldsOk, OthersSpared;
    var id, rest := p.queue[0], p.queue[1..];
    assert p.queue == [id] + rest;
    assert multiset([id] + rest) == multiset{id} + multiset(rest);
    var running := multiset(p.world.running);
    var extra := if s.ok then multiset{} else multiset{id};
    assert multiset([id] + s.queue) == multiset{id} + multiset(s.queue);
    forall x ensures multiset(q.preempted)[x] <= multiset(q.world.waiting)[x] {
      assert (multiset(s.preempted) + multiset(s.queue))[x] == (multiset(p.preempted) + multiset(rest) + extra)[x];
      assert Everyone(p.world, [id] + rest)[x] == (if s.ok then Everyone(s.world, [id] + s.queue)[x] else Everyone(s.world, [])[x]);
    }
  }

  /** A scheduled request is running, hence not queued. */
  lemma {:induction false} NotQueuedTwice(p: Progress, everyone: multiset<RequestId>, budget: Option<nat>, id: RequestId)
    requires ProgressOk(p, everyone, budget) && id in p.scheduled
    ensures id !in p.queue
  {
    assert IdOk(p.world, p.queue, id);
    assert id in multiset(p.world.running);
  }

  /** What `Assign` adds to a step whose next request is the head of the queue. */
  lemma {:induction false} AssignKeeps(p: Progress, tokens: nat, q: Progress, everyone: multiset<RequestId>, budget: Option<nat>)
    requires ProgressOk(p, everyone, budget) && p.queue != []
    requires var r := Get(p.world, p.queue[0]);
      && 1 <= tokens <= ContextLen(r) - r.computed && (p.budget.Some? ==> tokens <= p.budget.value)
      && (!ContextBuild(r) ==> tokens == 1 && |Table(p.world.kv, p.queue[0])| == LogicalBlocks(p.world.kv.blockSize, r))
    requires q == p.(world := Assign(p.world, p.queue[0], tokens), queue := p.queue[1..], budget := Spend(p.budget, tokens),
                     scheduled := p.scheduled + [p.queue[0]])
    ensures ProgressOk(q, everyone, budget)
  {
    hide WorldOk, Everyone, Table;
    var id := p.queue[0];
    AssignWorld(p.world, p.queue, tokens, q.world, q.queue);
    AssignTokens(p, tokens, q, everyone, budget);
    forall k | 0 <= k < |q.scheduled| ensures q.scheduled[k] in q.world.running && ScheduledOk(q.world, q.scheduled[k]) {
      if k < |p.scheduled| {
        NotQueuedTwice(p, everyone, budget, p.scheduled[k]);
        assert ScheduledOk(p.world, p.scheduled[k]);
      }
    }
    assert multiset(q.scheduled) == multiset(p.scheduled) + multiset{id};
    assert multiset(q.world.running) == multiset(p.world.running) + multiset{id};
  }

  lemma {:induction false} AssignTokens(p: Progress, tokens: nat, q: Progress, everyone: multiset<RequestId>, budget: Option<nat>)
    requires ProgressOk(p, everyone, budget) && p.queue != []
    requires q.world == Assign(p.world, p.queue[0], tokens) && q.scheduled == p.scheduled + [p.queue[0]]
    ensures TokenSum(q.world, q.scheduled, |q.scheduled|) == TokenSum(p.world, p.scheduled, |p.scheduled|) + tokens
  {
    hide WorldOk, ScheduledOk;
    forall k | 0 <= k < |p.scheduled| ensures Get(q.world, p.scheduled[k]) == Get(p.world, p.scheduled[k]) {
      NotQueuedTwice(p, everyone, budget, p.scheduled[k]);
    }
    SameTokens(p.world, q.world, p.scheduled, |p.scheduled|);
    TokensOfPrefix(q.world, p.scheduled, q.scheduled, |p.scheduled|);
  }

  lemma {:induction false} AssignWorld(w: World, queue: seq<RequestId>, tokens: nat, v: World, rest: seq<RequestId>)
    requires WorldOk(w, queue) && queue != [] && v == Assign(w, queue[0], tokens) && rest == queue[1..]
    ensures WorldOk(v, rest) && Everyone(v, rest) == Everyone(w, queue)
  {
    hide Inv, IdOk;
    HeadMoves(w, queue, v, rest);
    forall other ensures IdOk(v, rest, other) {
      assert IdOk(w, queue, other) && IdOk(w, queue, queue[0]);
      AssignId(w, queue, tokens, v, rest, other);
    }
  }

  lemma {:induction false} AssignId(w: World, queue: seq<RequestId>, tokens: nat, v: World, rest: seq<RequestId>, other: RequestId)
    requires queue != [] && v == Assign(w, queue[0], tokens) && rest == queue[1..]
    requires IdOk(w, queue, other) && IdOk(w, queue, queue[0]) && Everyone(v, rest) == Everyone(w, queue)
    ensures IdOk(v, rest, other)
  {
    hide Div, Everyone;
    HeadMember(w, queue, v, rest, other);
    HeadInside(w, queue);
  }

  lemma {:induction false} HeadInside(w: World, queue: seq<RequestId>)
    requires queue != []
    ensures queue[0] in Everyone(w, queue)
  {
    assert queue[0] in multiset(queue);
  }

  /** Moving the head of the queue to the end of the running requests. */
  lemma {:induction false} HeadMoves(w: World, queue: seq<RequestId>, v: World, rest: seq<RequestId>)
    requires queue != [] && rest == queue[1..] && v.running == w.running + [queue[0]] && v.waiting == w.waiting
    ensures Everyone(v, rest) == Everyone(w, queue)
  {
    assert queue == [queue[0]] + rest;
    assert multiset(queue) == multiset{queue[0]} + multiset(rest);
    assert multiset(v.running) == multiset(w.running) + multiset{queue[0]};
  }

  lemma {:induction false} HeadMember(w: World, queue: seq<RequestId>, v: World, rest: seq<RequestId>, other: RequestId)
    requires queue != [] && rest == queue[1..] && v.running == w.running + [queue[0]]
    ensures (other in v.running || other in rest) <==> (other in w.running || other in queue)
  {
    assert queue == [queue[0]] + rest;
  }

  lemma {:induction false} RunHeadKeeps(p: Progress, everyone: multiset<RequestId>, budget: Option<nat>)
    requires ProgressOk(p, everyone, budget) && p.queue != []
    ensures ProgressOk(RunHead(p), everyone, budget)
  {
    var id := p.queue[0];
    var r := Get(p.world, id);
    var tokens := StepTokens(r, p.budget, p.limit);
    HeadOk(p.world, p.queue);
    TokensFit(r, p.budget, p.limit);
    hide Inv, WorldOk, StepTokens, ReserveSlot, ProgressOk, RequestOk;
    if (p.deferred && r.pending) || tokens == 0 {
      KeptKeeps(p, everyone, budget);
    } else if ContextBuild(r) {
      AssignKeeps(p, tokens, RunHead(p), everyone, budget);
    } else {
      RunDecode(p, tokens, everyone, budget);
    }
  }

  lemma {:induction false} HeadOk(w: World, queue: seq<RequestId>)
    requires WorldOk(w, queue) && queue != []
    ensures queue[0] in w.requests && RequestOk(Get(w, queue[0]))
  {
    assert IdOk(w, queue, queue[0]);
    HeadInside(w, queue);
  }

  lemma {:induction false} RunDecode(p: Progress, tokens: nat, everyone: multiset<RequestId>, budget: Option<nat>)
    requires ProgressOk(p, everyone, budget) && p.queue != [] && !ContextBuild(Get(p.world, p.queue[0]))
    requires !(p.deferred && Get(p.world, p.queue[0]).pending)
    requires tokens == StepTokens(Get(p.world, p.queue[0]), p.budget, p.limit) && tokens == 1 && (p.budget.Some? ==> p.budget.value >= 1)
    ensures ProgressOk(RunHead(p), everyone, budget)
  {
    var id, rest := p.queue[0], p.queue[1..];
    assert p.queue == [id] + rest;
    ReserveSlotKeeps(p.world, id, rest, p.preempted);
    var s := ReserveSlot(p.world, id, rest, p.preempted);
    var q := p.(world := s.world, queue := if s.ok then [id] + s.queue else [], preempted := s.preempted);
    ReserveProgress(p, s, q, everyone, budget);
    if s.ok {
      HeadOk(q.world, q.queue);
      assert q.queue[1..] == s.queue;
      AssignKeeps(q, tokens, RunHead(p), everyone, budget);
    }
  }

  lemma {:induction false} RunQueueKeeps(p: Progress, everyone: multiset<RequestId>, budget: Option<nat>)
    requires ProgressOk(p, everyone, budget)
    ensures ProgressOk(RunQueue(p), everyone, budget)
    decreases |p.queue|
  {
    if p.queue != [] {
      RunHeadKeeps(p, everyone, budget);
      hide ProgressOk, RunHead;
      RunQueueKeeps(RunHead(p), everyone, budget);
    }
  }

  // ----- admissions -----

  lemma {:induction false} DivMono(a: nat, b: nat, k: nat)
    requires a <= b && k > 0
    ensures Div(a, k) <= Div(b, k)
    decreases a
  {
    if a >= k { DivMono(a - k, b - k, k); }
  }

  /** Never more hits than logical blocks. */
  lemma {:induction false} HitsFit(w: World, id: RequestId)
    requires w.kv.blockSize > 0 && RequestOk(Get(w, id))
    ensures |PlanReuse(w.kv, KvReq(w, id))| <= LogicalBlocks(w.kv.blockSize, Get(w, id))
  {
    var r := Get(w, id);
    DivMono(r.prompt.prefillLen, r.logical + w.kv.blockSize - 1, w.kv.blockSize);
  }

  lemma {:induction false} AdmittedOk(r: Request, hitTokens: nat)
    requires RequestOk(r)
    ensures RequestOk(Admitted(r, hitTokens))
    ensures ContextBuild(r) ==> Admitted(r, hitTokens).computed == Min(hitTokens, ContextLen(r) - 1)
  {
  }

  /** The world between allocation and token assignment, with the new request in hand. */
  ghost function Entered(w: World): (v: World)
    requires Inv(w.kv) && w.waiting != []
    ensures Inv(v.kv)
  {
    var id := w.waiting[0];
    AllocateKeeps(w.kv, KvReq(w, id));
    w.(kv := AllocateOp(w.kv, KvReq(w, id)).after, requests := w.requests[id := Admitted(Get(w, id), HitTokens(w, id))],
       waiting := w.waiting[1..])
  }

  lemma {:induction false} WaitingHead(w: World, queue: seq<RequestId>)
    requires WorldOk(w, queue) && w.waiting != []
    ensures var id := w.waiting[0];
      && id in w.requests && RequestOk(Get(w, id)) && Table(w.kv, id) == [] && id !in w.running && id !in queue && id !in w.waiting[1..]
  {
    var id := w.waiting[0];
    assert IdOk(w, queue, id);
    assert w.waiting == [id] + w.waiting[1..];
    assert multiset(w.waiting) == multiset{id} + multiset(w.waiting[1..]);
    assert multiset(w.running)[id] == 0 && multiset(queue)[id] == 0 && multiset(w.waiting[1..])[id] == 0;
  }

  lemma {:induction false} EnteredShape(w: World, v: World)
    requires Inv(w.kv) && w.waiting != [] && v == Entered(w)
    ensures var id := w.waiting[0];
      && v.running == w.running && v.waiting == w.waiting[1..] && v.config == w.config && v.arrival == w.arrival
      && v.requests == w.requests[id := Admitted(Get(w, id), HitTokens(w, id))]
      && v.kv == AllocateOp(w.kv, KvReq(w, id)).after && Inv(v.kv)
  {
    hide Inv, AllocateOp, HitTokens;
  }

  lemma {:induction false} EnteredHolds(w: World, v: World)
    requires WorldOk(w, []) && w.waiting != [] && CanAllocate(w.kv, KvReq(w, w.waiting[0])) && v == Entered(w)
    ensures var id := w.waiting[0];
      && |Table(v.kv, id)| == LogicalBlocks(v.kv.blockSize, Get(v, id)) && SameSetting(w, v) && OthersSpared(w, v, id, [])
  {
    hide Inv, AllocateOp, CanAllocate, PlanReuse, HitTokens, Entered, RequestOk, IdOk;
    var id := w.waiting[0];
    WaitingHead(w, []);
    HitsFit(w, id);
    EnteredShape(w, v);
    AllocateTable(w.kv, KvReq(w, id), id);
    forall other | other != id ensures Spared(w, v, other) { AllocateTable(w.kv, KvReq(w, id), other); }
  }

  lemma {:induction false} EnteredId(w: World, v: World, id: RequestId, hand: seq<RequestId>, other: RequestId)
    requires IdOk(w, [], other) && w.waiting != [] && id == w.waiting[0] && hand == [id] && Everyone(v, hand) == Everyone(w, [])
    requires v.running == w.running && id in v.requests && RequestOk(Get(v, id)) && HoldsOk(v, id)
    requires other != id ==> Spared(w, v, other) && v.kv.blockSize == w.kv.blockSize && (other in w.requests ==> other in v.requests)
    ensures IdOk(v, hand, other)
  {
    hide Everyone, LogicalBlocks;
  }

  lemma {:induction false} HeadEnters(w: World, v: World)
    requires w.waiting != [] && v.running == w.running && v.waiting == w.waiting[1..]
    ensures Everyone(v, [w.waiting[0]]) == Everyone(w, [])
  {
    assert w.waiting == [w.waiting[0]] + w.waiting[1..];
    assert multiset(w.waiting) == multiset{w.waiting[0]} + multiset(w.waiting[1..]);
  }

  lemma {:induction false} EnteredOk(w: World, v: World)
    requires WorldOk(w, []) && w.waiting != [] && CanAllocate(w.kv, KvReq(w, w.waiting[0])) && v == Entered(w)
    ensures var id := w.waiting[0];
      && WorldOk(v, [id]) && Everyone(v, [id]) == Everyone(w, []) && SameSetting(w, v)
      && |Table(v.kv, id)| == LogicalBlocks(v.kv.blockSize, Get(v, id)) && RequestOk(Get(v, id))
      && OthersSpared(w, v, id, [])
  {
    hide Inv, IdOk, HitTokens, Everyone, AllocateOp, CanAllocate, RequestOk, Entered, Admitted;
    var id := w.waiting[0];
    WaitingHead(w, []);
    EnteredHolds(w, v);
    EnteredShape(w, v);
    AdmittedOk(Get(w, id), HitTokens(w, id));
    HeadEnters(w, v);
    forall other ensures IdOk(v, [id], other) {
      assert IdOk(w, [], other);
      if other != id { assert Spared(w, v, other); }
      EnteredId(w, v, id, [id], other);
    }
  }

  lemma {:induction false} EnterProgress(p: Progress, v: World, q: Progress, everyone: multiset<RequestId>, budget: Option<nat>)
    requires ProgressOk(p, everyone, budget) && p.queue == [] && p.world.waiting != [] && p.preempted == []
    requires var id := p.world.waiting[0];
      && q == p.(world := v, queue := [id]) && WorldOk(v, [id]) && Everyone(v, [id]) == Everyone(p.world, [])
      && SameSetting(p.world, v) && v.running == p.world.running && OthersSpared(p.world, v, id, [])
    ensures ProgressOk(q, everyone, budget)
  {
    hide WorldOk, Everyone;
    var id := p.world.waiting[0];
    WaitingHead(p.world, []);
    forall k | 0 <= k < |p.scheduled| ensures Spared(p.world, v, p.scheduled[k]) { assert p.scheduled[k] in p.world.running; }
    SameTokens(p.world, v, p.scheduled, |p.scheduled|);
    forall k | 0 <= k < |q.scheduled| ensures q.scheduled[k] in q.world.running && ScheduledOk(q.world, q.scheduled[k]) {
      assert ScheduledOk(p.world, p.scheduled[k]) && Spared(p.world, v, p.scheduled[k]);
    }
  }

  lemma {:induction false} AdmitHeadKeeps(p: Progress, everyone: multiset<RequestId>, budget: Option<nat>)
    requires ProgressOk(p, everyone, budget) && p.queue == [] && p.preempted == [] && TriesNext(p) && Admissible(p)
    ensures ProgressOk(AdmitHead(p), everyone, budget) && AdmitHead(p).queue == [] && AdmitHead(p).preempted == []
  {
    hide Inv, IdOk, HitTokens, Everyone, AllocateOp, CanAllocate, RequestOk, Admitted, StepTokens, BelowOccupancy, ScheduledOk;
    var w, id, v := p.world, p.world.waiting[0], Entered(p.world);
    var q := p.(world := v, queue := [id]);
    EnteredShape(w, v);
    EnteredOk(w, v);
    EnterProgress(p, v, q, everyone, budget);
    var tokens := StepTokens(Get(v, id), p.budget, p.limit);
    TokensFit(Get(v, id), p.budget, p.limit);
    hide ProgressOk;
    assert q.queue[1..] == [];
    AssignKeeps(q, tokens, AdmitHead(p), everyone, budget);
  }
}
