/** First come, first served over whole runs, and why everybody finishes. */
module SchedulingLiveness {
  import opened Common
  import opened PrefixKeys
  import opened KvPool
  import opened KvCache
  import opened KvManager
  import opened KvCapacity
  import opened KvRuns
  import opened Scheduling
  import opened SchedulingSteps
  import opened SchedulingResults
  import opened SchedulingProgress
  import opened SchedulingLine
  import Life = SchedulingRuns

  // ----- what a step does not change -----

  lemma {:induction false} ReservePlant(w: World, id: RequestId, queue: seq<RequestId>, preempted: seq<RequestId>)
    requires Inv(w.kv)
    ensures PlantOf(ReserveSlot(w, id, queue, preempted).world.kv) == PlantOf(w.kv)
    decreases |queue|
  {
    hide Inv, AppendOp, CanAppend, ReleaseOp, PlantOf, KvReq;
    ReleasePlant(w.kv, id);
    AppendPlant(w.kv, KvReq(w, id));
    if !CanAppend(w.kv, KvReq(w, id), 0) && queue != [] {
      var victim := queue[|queue| - 1];
      ReleasePlant(w.kv, victim);
      ReservePlant(Preempt(w, victim), id, queue[..|queue| - 1], preempted + [victim]);
    }
  }

  lemma {:induction false} RunQueuePlant(p: Progress)
    requires Inv(p.world.kv)
    ensures PlantOf(RunQueue(p).world.kv) == PlantOf(p.world.kv)
    decreases |p.queue|
  {
    hide Inv, ReserveSlot, PlantOf, StepTokens;
    if p.queue != [] {
      ReservePlant(p.world, p.queue[0], p.queue[1..], p.preempted);
      assert PlantOf(RunHead(p).world.kv) == PlantOf(p.world.kv);
      hide RunHead;
      RunQueuePlant(RunHead(p));
    }
  }

  lemma {:induction false} AdmitQueuePlant(p: Progress)
    requires Inv(p.world.kv)
    ensures PlantOf(AdmitQueue(p).world.kv) == PlantOf(p.world.kv)
    decreases |p.world.waiting|
  {
    hide Inv, AllocateOp, PlantOf, StepTokens, Admissible, BelowOccupancy, HitTokens;
    if TriesNext(p) && Admissible(p) {
      AllocatePlant(p.world.kv, KvReq(p.world, p.world.waiting[0]));
      AdmitQueuePlant(AdmitHead(p));
    }
  }

  lemma {:induction false} StepPlant(w: World, throttle: bool)
    requires Inv(w.kv)
    ensures PlantOf(Schedule(w, throttle).world.kv) == PlantOf(w.kv)
  {
    hide Inv, PlantOf, RunQueue, AdmitQueue;
    RunQueuePlant(Begin(w, throttle));
    AdmitQueuePlant(RunQueue(Begin(w, throttle)));
  }

  lemma {:induction false} CommitAllPlant(w: World, ids: seq<RequestId>, n: nat)
    requires Inv(w.kv) && n <= |ids|
    ensures PlantOf(Life.CommitAll(w, ids, n).kv) == PlantOf(w.kv)
    decreases n
  {
    hide Inv, CommitInputOp, PlantOf;
    if n > 0 {
      CommitAllPlant(w, ids, n - 1);
      CommitPlant(Life.CommitAll(w, ids, n - 1).kv, ids[n - 1]);
    }
  }

  lemma {:induction false} FreeAllPlant(w: World, ids: seq<RequestId>, n: nat)
    requires Inv(w.kv) && n <= |ids|
    ensures PlantOf(Life.FreeAll(w, ids, n).kv) == PlantOf(w.kv)
    decreases n
  {
    hide Inv, FreeOp, PlantOf;
    if n > 0 {
      FreeAllPlant(w, ids, n - 1);
      var v := Life.FreeAll(w, ids, n - 1);
      FreePlant(v.kv, KvReq(v, ids[n - 1]));
    }
  }

  lemma {:induction false} CompletePlant(w: World, ids: seq<RequestId>)
    requires Inv(w.kv)
    ensures PlantOf(Life.Complete(w, ids).kv) == PlantOf(w.kv)
  {
    hide Inv, PlantOf, Life.CommitAll, Life.FreeAll, Life.AdvanceAll;
    var a := Life.AdvanceAll(w, ids, |ids|);
    CommitAllPlant(a, ids, |ids|);
    FreeAllPlant(Life.CommitAll(a, ids, |ids|), ids, |ids|);
  }

  /** Neither prompt nor output changes while a step is put together. */
  ghost predicate Kin(r: Request, s: Request) {
    s.prompt == r.prompt && s.generated == r.generated
  }

  lemma {:induction false} ReserveKin(w: World, id: RequestId, queue: seq<RequestId>, preempted: seq<RequestId>, x: RequestId)
    requires Inv(w.kv)
    ensures var s := ReserveSlot(w, id, queue, preempted);
      && Kin(Get(w, x), Get(s.world, x)) && (x in s.queue ==> x in queue)
      && (x !in queue && (x == id ==> s.ok) ==> Get(s.world, x) == Get(w, x))
    decreases |queue|
  {
    hide Inv, AppendOp, CanAppend, ReleaseOp, KvReq;
    if !CanAppend(w.kv, KvReq(w, id), 0) && queue != [] {
      var victim := queue[|queue| - 1];
      ReserveKin(Preempt(w, victim), id, queue[..|queue| - 1], preempted + [victim], x);
    }
  }

  lemma {:induction false} RunHeadKin(p: Progress, x: RequestId)
    requires Inv(p.world.kv) && p.queue != []
    ensures var q := RunHead(p);
      && Kin(Get(p.world, x), Get(q.world, x)) && (x in q.queue ==> x in p.queue[1..])
      && (x !in p.queue ==> Get(q.world, x) == Get(p.world, x))
  {
    hide Inv, ReserveSlot, StepTokens, ContextBuild, Spend, ContextLen;
    var id, rest, r := p.queue[0], p.queue[1..], Get(p.world, p.queue[0]);
    assert p.queue == [id] + rest;
    if (p.deferred && r.pending) || StepTokens(r, p.budget, p.limit) == 0 {
    } else if !ContextBuild(r) {
      ReserveKin(p.world, id, rest, p.preempted, x);
    }
  }

  lemma {:induction false} RunHeadComputed(p: Progress)
    requires Inv(p.world.kv) && p.queue != [] && p.queue[0] !in p.queue[1..]
    requires p.queue[0] !in p.scheduled && p.queue[0] in RunHead(p).scheduled
    ensures Get(RunHead(p).world, p.queue[0]).computed == Get(p.world, p.queue[0]).computed
  {
    hide Inv, ReserveSlot, StepTokens, ContextBuild;
    ReserveKin(p.world, p.queue[0], p.queue[1..], p.preempted, p.queue[0]);
  }

  lemma {:induction false} RunQueueKin(p: Progress, x: RequestId)
    requires Inv(p.world.kv)
    ensures Kin(Get(p.world, x), Get(RunQueue(p).world, x))
    ensures x !in p.queue ==> Get(RunQueue(p).world, x) == Get(p.world, x)
    decreases |p.queue|
  {
    hide Inv, RunHead, Get;
    if p.queue != [] {
      RunHeadKin(p, x);
      RunQueueKin(RunHead(p), x);
    }
  }

  lemma {:induction false} AdmitHeadKin(p: Progress, x: RequestId)
    requires Inv(p.world.kv) && p.world.waiting != []
    ensures Kin(Get(p.world, x), Get(AdmitHead(p).world, x)) && AdmitHead(p).world.waiting == p.world.waiting[1..]
    ensures x != p.world.waiting[0] ==> Get(AdmitHead(p).world, x) == Get(p.world, x)
  {
    hide Inv, AllocateOp, StepTokens, HitTokens;
  }

  lemma {:induction false} AdmitQueueKin(p: Progress, x: RequestId)
    requires Inv(p.world.kv)
    ensures Kin(Get(p.world, x), Get(AdmitQueue(p).world, x))
    ensures x !in p.world.waiting ==> Get(AdmitQueue(p).world, x) == Get(p.world, x)
    decreases |p.world.waiting|
  {
    hide Inv, AdmitHead, Admissible, BelowOccupancy, Get;
    if TriesNext(p) && Admissible(p) {
      AdmitHeadKin(p, x);
      AdmitQueueKin(AdmitHead(p), x);
    }
  }

  lemma {:induction false} StepKin(w: World, throttle: bool, x: RequestId)
    requires Inv(w.kv)
    ensures Kin(Get(w, x), Get(Schedule(w, throttle).world, x))
  {
    hide Inv, RunQueue, AdmitQueue, ByArrival;
    RunQueueKin(Begin(w, throttle), x);
    AdmitQueueKin(RunQueue(Begin(w, throttle)), x);
  }

  // ----- the first in line -----

  /** The blocks a request needs before its last token. */
  function FullBlocks(blockSize: nat, prompt: Prompt): nat {
    if blockSize == 0 then 0 else Div(Max(0, prompt.prefillLen + prompt.decodeLen - 1) + blockSize - 1, blockSize)
  }

  lemma {:induction false} DivMono(a: nat, b: nat, k: nat)
    requires k > 0 && a <= b
    ensures Div(a, k) <= Div(b, k)
    decreases b
  {
    if a >= k { DivMono(a - k, b - k, k); }
  }

  lemma {:induction false} NeverMore(blockSize: nat, r: Request)
    requires RequestOk(r)
    ensures LogicalBlocks(blockSize, r) <= FullBlocks(blockSize, r.prompt)
  {
    if blockSize > 0 { DivMono(r.logical + blockSize - 1, Max(0, r.prompt.prefillLen + r.prompt.decodeLen - 1) + blockSize - 1, blockSize); }
  }

  /** A scheduler that can run somebody: a token to spend, a place, an occupancy limit above zero, nothing set aside. */
  ghost predicate Ready(w: World) {
    && (w.config.budget.Some? ==> w.config.budget.value >= 1)
    && (w.config.maxSeqs.Some? ==> w.config.maxSeqs.value >= 1)
    && w.config.occupy > 0.0 && w.kv.reserved == []
  }

  /** Room for the whole request and the watermark in an empty pool. */
  ghost predicate Fits(w: World, id: RequestId) {
    1 <= FullBlocks(w.kv.blockSize, Get(w, id).prompt) + w.kv.watermark <= w.kv.cache.gpu.capacity
  }

  lemma {:induction false} InLine(w: World, id: RequestId)
    requires WorldOk(w, []) && (id in w.running || id in w.waiting)
    ensures id in w.requests && RequestOk(Get(w, id)) && !(id in w.running && id in w.waiting)
  {
    assert IdOk(w, [], id);
    assert id in w.running <==> id in multiset(w.running);
    assert id in w.waiting <==> id in multiset(w.waiting);
  }

  lemma {:induction false} HeadOnce(w: World)
    requires WorldOk(w, []) && w.running != []
    ensures w.running[0] !in w.running[1..]
  {
    assert IdOk(w, [], w.running[0]);
    var head, rest := w.running[0], w.running[1..];
    assert w.running == [head] + rest;
    assert multiset(w.running) == multiset{head} + multiset(rest);
    assert head in rest <==> head in multiset(rest);
  }

  /** A running head of the line gets tokens, and keeps what it has computed. */
  lemma {:induction false} HeadRuns(w: World)
    requires WorldOk(w, []) && Ready(w) && InOrder(w) && w.running != [] && Fits(w, w.running[0])
    ensures var p, head := Schedule(w, false), w.running[0];
      head in p.scheduled && Get(p.world, head).computed == Get(w, head).computed
  {
    hide Inv, IdOk, Schedule, ByArrival, LogicalBlocks, FullBlocks, RequestOk;
    var head := w.running[0];
    assert head in w.running;
    InLine(w, head);
    NeverMore(w.kv.blockSize, Get(w, head));
    RunningInOrder(w);
    OldestRuns(w, head);
    HeadOnce(w);
    HeadComputed(w, head);
  }

  lemma {:induction false} BeginHead(w: World)
    requires WorldOk(w, []) && Ready(w) && InOrder(w) && w.running != [] && Fits(w, w.running[0])
    ensures var p := Begin(w, false);
      && p.queue == w.running && p.scheduled == [] && Get(p.world, w.running[0]) == Get(w, w.running[0])
      && Inv(p.world.kv) && w.running[0] in RunHead(p).scheduled
  {
    hide Inv, IdOk, ByArrival, LogicalBlocks, FullBlocks, RequestOk, RunHead;
    var head := w.running[0];
    assert head in w.running;
    InLine(w, head);
    NeverMore(w.kv.blockSize, Get(w, head));
    RunningInOrder(w);
    BeginOk(w, false);
    HeadIsScheduled(Begin(w, false));
  }

  lemma {:induction false} HeadComputed(w: World, head: RequestId)
    requires WorldOk(w, []) && Ready(w) && InOrder(w) && w.running != [] && head == w.running[0] && Fits(w, head)
    requires head !in w.running[1..]
    ensures Get(Schedule(w, false).world, head).computed == Get(w, head).computed
  {
    hide Inv, IdOk, Begin, RunHead, RunQueue, AdmitQueue, Get, Fits, Ready, InOrder;
    BeginHead(w);
    var p := Begin(w, false);
    RunHeadComputed(p);
    RunHeadKin(p, head);
    RunQueueKin(RunHead(p), head);
    var ran := RunQueue(p);
    QueueStep(p);
    NotWaiting(w, ran, head);
    AdmitQueueKin(ran, head);
    BoundUnseen(AdmitQueue(ran), head);
  }

  lemma {:induction false} QueueStep(p: Progress)
    requires Inv(p.world.kv) && p.queue != []
    ensures RunQueue(p) == RunQueue(RunHead(p))
  {
    hide Inv, RunHead;
  }

  lemma {:induction false} BoundUnseen(p: Progress, head: RequestId)
    ensures forall b :: Get(p.world.(capacityBound := b), head) == Get(p.world, head)
  {
  }

  lemma {:induction false} ScheduledRuns(p: Progress, everyone: multiset<RequestId>, budget: Option<nat>, id: RequestId)
    requires ProgressOk(p, everyone, budget) && id in p.scheduled
    ensures id in p.world.running && id !in p.world.waiting
  {
    hide HoldsOk, RequestOk, Inv, ScheduledOk;
    assert IdOk(p.world, p.queue, id);
    assert id in p.world.waiting <==> id in multiset(p.world.waiting);
    assert id in p.world.running <==> id in multiset(p.world.running);
  }

  lemma {:induction false} NotWaiting(w: World, ran: Progress, head: RequestId)
    requires WorldOk(w, []) && Ready(w) && InOrder(w) && w.running != [] && head == w.running[0] && Fits(w, head)
    requires ran == RunQueue(Begin(w, false))
    ensures head !in ran.world.waiting
  {
    hide Inv, IdOk, Begin, RunHead, RunQueue, Get, Fits, Ready, InOrder, ProgressOk;
    var p := Begin(w, false);
    BeginHead(w);
    BeginOk(w, false);
    RunQueueKeeps(p, Everyone(w, []), w.config.budget);
    QueueStep(p);
    RunQueueGrows(RunHead(p));
    ScheduledRuns(ran, Everyone(w, []), w.config.budget, head);
  }

  // ----- admission into an empty pool -----

  lemma {:induction false} ZeroRefsBound(c: Cache, hits: seq<Ref>)
    ensures ZeroRefs(c, hits) <= |hits|
    decreases |hits|
  {
    hide Refs;
    if hits != [] { ZeroRefsBound(c, hits[1..]); }
  }

  lemma {:induction false} EmptyPool(m: Manager)
    requires Inv(m) && m.reserved == [] && forall id :: Table(m, id) == []
    ensures NumFree(m.cache.gpu) == m.cache.gpu.capacity
  {
    hide PoolOk, NumFree;
    OnlyOneHolds(m, 0);
    BusyAtMostHeld(m.cache, Held(m));
    ConsistentPool(m.cache, Held(m), GPU);
    Conservation(m.cache.gpu);
  }

  lemma {:induction false} NobodyRuns(w: World)
    requires WorldOk(w, []) && w.running == []
    ensures forall id :: Table(w.kv, id) == []
  {
    forall id ensures Table(w.kv, id) == [] { assert IdOk(w, [], id); }
  }

  lemma {:induction false} SomethingBelow(occupy: real, capacity: nat)
    requires occupy > 0.0 && capacity >= 1
    ensures 0.0 < occupy * capacity as real
  {
  }

  lemma {:induction false} HeadAdmissible(w: World, p: Progress)
    requires WorldOk(w, []) && Ready(w) && w.running == [] && w.waiting != [] && Fits(w, w.waiting[0]) && p == Begin(w, false)
    ensures TriesNext(p) && Admissible(p)
  {
    hide Inv, IdOk, FullBlocks, LogicalBlocks, PlanReuse, HitTokens, RequestOk, ZeroRefs;
    var head := w.waiting[0];
    assert head in w.waiting;
    InLine(w, head);
    NeverMore(w.kv.blockSize, Get(w, head));
    NobodyRuns(w);
    EmptyPool(w.kv);
    SomethingBelow(w.config.occupy, w.kv.cache.gpu.capacity);
    ZeroRefsBound(w.kv.cache, PlanReuse(w.kv, KvReq(w, head)));
    assert Get(p.world, head) == Get(w, head);
  }

  /** With nobody running, the head of the waiting queue is admitted and gets tokens. */
  lemma {:induction false} HeadEnters(w: World)
    requires WorldOk(w, []) && Ready(w) && w.running == [] && w.waiting != [] && Fits(w, w.waiting[0])
    ensures w.waiting[0] in Schedule(w, false).scheduled
  {
    hide Inv, IdOk, TriesNext, Admissible, StepTokens, AllocateOp, HitTokens;
    var p := Begin(w, false);
    HeadAdmissible(w, p);
    assert RunQueue(p) == p && p.preempted == [];
    var q := AdmitHead(p);
    assert w.waiting[0] in q.scheduled;
    AdmitQueueGrows(q);
  }

  // ----- leaving the line -----

  /** `out` is `ids` with some places left out. */
  ghost predicate Thins(out: seq<RequestId>, ids: seq<RequestId>)
    decreases |ids|
  {
    if ids == [] then out == []
    else
      var front, last := ids[..|ids| - 1], ids[|ids| - 1];
      Thins(out, front) || (out != [] && out[|out| - 1] == last && Thins(out[..|out| - 1], front))
  }

  lemma {:induction false} ThinMembers(out: seq<RequestId>, ids: seq<RequestId>, x: RequestId)
    requires Thins(out, ids) && x in out
    ensures x in ids
    decreases |ids|
  {
    var front := ids[..|ids| - 1];
    if Thins(out, front) {
      ThinMembers(out, front, x);
    } else if x != ids[|ids| - 1] {
      ThinMembers(out[..|out| - 1], front, x);
    }
  }

  lemma {:induction false} ThinSorted(w: World, out: seq<RequestId>, ids: seq<RequestId>)
    requires Thins(out, ids) && Sorted(w, ids)
    ensures Sorted(w, out)
    decreases |ids|
  {
    hide Arrival;
    if ids != [] {
      var front, last := ids[..|ids| - 1], ids[|ids| - 1];
      if Thins(out, front) {
        ThinSorted(w, out, front);
      } else {
        var rest := out[..|out| - 1];
        ThinSorted(w, rest, front);
        forall i | 0 <= i < |rest| ensures Arrival(w, rest[i]) <= Arrival(w, last) {
          ThinMembers(rest, front, rest[i]);
          var k :| 0 <= k < |front| && front[k] == rest[i];
          assert ids[k] == front[k];
        }
      }
    }
  }

  lemma {:induction false} ThinsWhole(ids: seq<RequestId>)
    ensures Thins(ids, ids)
    decreases |ids|
  {
    if ids != [] { ThinsWhole(ids[..|ids| - 1]); }
  }

  /** Leaving out places in the first part only. */
  lemma {:induction false} ThinFront(out: seq<RequestId>, ids: seq<RequestId>, tail: seq<RequestId>)
    requires Thins(out, ids)
    ensures Thins(out + tail, ids + tail)
    decreases |tail|
  {
    if tail == [] {
      assert out + tail == out && ids + tail == ids;
    } else {
      var front, last := tail[..|tail| - 1], tail[|tail| - 1];
      ThinFront(out, ids, front);
      assert (ids + tail)[..|ids + tail| - 1] == ids + front;
      assert (out + tail)[..|out + tail| - 1] == out + front;
    }
  }

  /** Leaving out places in the second part only. */
  lemma {:induction false} ThinBack(head: seq<RequestId>, out: seq<RequestId>, ids: seq<RequestId>)
    requires Thins(out, ids)
    ensures Thins(head + out, head + ids)
    decreases |ids|
  {
    if ids == [] {
      assert head + out == head && head + ids == head;
      ThinsWhole(head);
    } else {
      var front := ids[..|ids| - 1];
      assert (head + ids)[..|head + ids| - 1] == head + front;
      if Thins(out, front) {
        ThinBack(head, out, front);
      } else {
        ThinBack(head, out[..|out| - 1], front);
        assert (head + out)[..|head + out| - 1] == head + out[..|out| - 1];
      }
    }
  }

  lemma {:induction false} UnfinishedThins(w: World, ids: seq<RequestId>, n: nat)
    requires n <= |ids|
    ensures Thins(Life.Unfinished(w, ids, n), ids[..n])
    decreases n
  {
    hide Done, Get;
    if n > 0 {
      UnfinishedThins(w, ids, n - 1);
      assert ids[..n][..n - 1] == ids[..n - 1];
      assert (Life.Unfinished(w, ids, n - 1) + [ids[n - 1]])[..|Life.Unfinished(w, ids, n - 1)|] == Life.Unfinished(w, ids, n - 1);
    }
  }

  lemma {:induction false} WithoutThins(ids: seq<RequestId>, id: RequestId)
    ensures Thins(Without(ids, id), ids)
    decreases |ids|
  {
    hide Without;
    if ids != [] {
      var front, last := ids[..|ids| - 1], ids[|ids| - 1];
      WithoutThins(front, id);
      assert ids == front + [last];
      WithoutConcat(front, [last], id);
      WithoutSingle(last, id);
      var out := Without(front, id);
      assert out + [] == out;
      ThinNext(out, front, last, ids);
    } else {
      WithoutAbsent(ids, id);
    }
  }

  lemma {:induction false} WithoutSingle(x: RequestId, id: RequestId)
    ensures Without([x], id) == if x == id then [] else [x]
  {
    assert [x][1..] == [];
  }

  // ----- the work left -----

  /** Tokens to read and to write: no request needs more steps than that at the head of the line. */
  function Steps(w: World, id: RequestId): nat {
    Get(w, id).prompt.prefillLen + Get(w, id).prompt.decodeLen
  }

  function Owed(w: World, ids: seq<RequestId>): nat
    decreases |ids|
  {
    if ids == [] then 0 else Owed(w, ids[..|ids| - 1]) + Steps(w, ids[|ids| - 1])
  }

  lemma {:induction false} OwedThins(w: World, out: seq<RequestId>, ids: seq<RequestId>)
    requires Thins(out, ids)
    ensures Owed(w, out) <= Owed(w, ids)
    decreases |ids|
  {
    hide Steps;
    if ids != [] {
      var front := ids[..|ids| - 1];
      if Thins(out, front) { OwedThins(w, out, front); } else { OwedThins(w, out[..|out| - 1], front); }
    }
  }

  lemma {:induction false} OwedHead(w: World, head: RequestId, rest: seq<RequestId>, all: seq<RequestId>)
    requires all == [head] + rest
    ensures Owed(w, all) == Steps(w, head) + Owed(w, rest)
    decreases |rest|
  {
    hide Steps;
    if rest == [] {
      assert all[..|all| - 1] == [];
    } else {
      assert all[..|all| - 1] == [head] + rest[..|rest| - 1];
      OwedHead(w, head, rest[..|rest| - 1], all[..|all| - 1]);
    }
  }

  lemma {:induction false} OwedSame(w: World, v: World, ids: seq<RequestId>)
    requires forall x :: Steps(v, x) == Steps(w, x)
    ensures Owed(v, ids) == Owed(w, ids)
    decreases |ids|
  {
    hide Steps;
    if ids != [] { OwedSame(w, v, ids[..|ids| - 1]); }
  }

  /** Steps owed to the whole line, less what the head, once running, has already computed. */
  function Work(w: World): int {
    Owed(w, w.running + w.waiting) - (if w.running == [] then 0 else Get(w, w.running[0]).computed)
  }

  // ----- a whole tick -----

  lemma {:induction false} UnfinishedHead(w: World, ids: seq<RequestId>, n: nat)
    requires 1 <= n <= |ids|
    ensures var out := Life.Unfinished(w, ids, n);
      if Done(Get(w, ids[0])) then Thins(out, ids[1..n]) else out != [] && out[0] == ids[0]
    decreases n
  {
    hide Done, Get, Thins;
    if n > 1 {
      UnfinishedHead(w, ids, n - 1);
      if Done(Get(w, ids[0])) { ThinNext(Life.Unfinished(w, ids, n - 1), ids[1..n - 1], ids[n - 1], ids[1..n]); }
    } else {
      ThinsWhole([]);
      assert Life.Unfinished(w, ids, 0) == [] && ids[1..n] == [];
    }
  }

  lemma {:induction false} ThinNext(out: seq<RequestId>, ids: seq<RequestId>, last: RequestId, all: seq<RequestId>)
    requires Thins(out, ids) && all == ids + [last]
    ensures Thins(out, all) && Thins(out + [last], all)
  {
    assert all[..|all| - 1] == ids && (out + [last])[..|out|] == out;
  }

  /** The line after completing a step: finished requests have left it, and nobody else. */
  lemma {:induction false} CompleteLine(w: World, ids: seq<RequestId>)
    requires Inv(w.kv)
    ensures var v := Life.Complete(w, ids);
      && v.waiting == w.waiting && v.arrival == w.arrival && v.config == w.config && Thins(v.running, w.running)
      && (w.running != [] ==>
            if Done(Get(v, w.running[0])) then Thins(v.running, w.running[1..]) else v.running != [] && v.running[0] == w.running[0])
  {
    hide Inv, Thins, Done, Life.AdvanceAll, Life.CommitAll, Life.FreeAll, Life.Unfinished;
    var a := Life.AdvanceAll(w, ids, |ids|);
    var updated := Life.FreeAll(Life.CommitAll(a, ids, |ids|), ids, |ids|);
    assert updated.running == w.running;
    UnfinishedThins(updated, w.running, |w.running|);
    assert w.running[..|w.running|] == w.running;
    if w.running != [] {
      UnfinishedHead(updated, w.running, |w.running|);
      assert w.running[1..|w.running|] == w.running[1..];
    }
  }

  /** A state from which ticks alone finish everybody. */
  ghost predicate Good(w: World) {
    WorldOk(w, []) && Ready(w) && InOrder(w) && forall x :: x in w.running || x in w.waiting ==> Fits(w, x)
  }

  ghost function Ticked(w: World, throttle: bool): (v: World)
    requires Inv(w.kv)
    ensures Inv(v.kv)
  {
    Life.Happen(w, Life.Tick(throttle))
  }

  /** Who is in the line after a tick, and where. */
  lemma {:induction false} TickLine(w: World, throttle: bool)
    requires Inv(w.kv) && InOrder(w)
    ensures var p, v := Schedule(w, throttle), Ticked(w, throttle);
      && p.world.running + p.world.waiting == w.running + w.waiting
      && v.waiting == p.world.waiting && v.arrival == w.arrival && v.config == w.config
      && Thins(v.running + v.waiting, w.running + w.waiting) && InOrder(v)
  {
    hide Inv, Schedule, Life.Complete, Thins, Sorted;
    StepInOrder(w, throttle);
    var p := Schedule(w, throttle);
    var v := Life.Complete(p.world, p.scheduled);
    CompleteLine(p.world, p.scheduled);
    ThinFront(v.running, p.world.running, v.waiting);
    ThinSorted(w, v.running + v.waiting, w.running + w.waiting);
    SameOrder(w, v, v.running + v.waiting);
  }

  lemma {:induction false} TickPlant(w: World, throttle: bool)
    requires Inv(w.kv)
    ensures PlantOf(Ticked(w, throttle).kv) == PlantOf(w.kv)
  {
    hide Inv, PlantOf, Schedule, Life.Complete;
    StepPlant(w, throttle);
    var p := Schedule(w, throttle);
    CompletePlant(p.world, p.scheduled);
  }

  lemma {:induction false} AdvancedPrompt(r: Request)
    ensures Life.Advanced(r).prompt == r.prompt
  {
  }

  lemma {:induction false} TickPrompt(w: World, throttle: bool, x: RequestId)
    requires WorldOk(w, [])
    ensures Get(Ticked(w, throttle), x).prompt == Get(w, x).prompt
    ensures var p := Schedule(w, throttle);
      x in p.scheduled ==> Get(Ticked(w, throttle), x) == Life.Advanced(Get(p.world, x)) && ScheduledOk(p.world, x) && x in p.world.running
  {
    hide Inv, IdOk, Schedule, Life.Complete, Life.Advanced, ProgressOk, ScheduledOk;
    StepKin(w, throttle, x);
    ScheduleKeeps(w, throttle);
    var p := Schedule(w, throttle);
    Life.ScheduledUniquely(p, Everyone(w, []), w.config.budget);
    Life.CompleteAt(p.world, p.scheduled, Life.Complete(p.world, p.scheduled), x);
    AdvancedPrompt(Get(p.world, x));
  }

  lemma {:induction false} FitsStill(w: World, v: World, x: RequestId)
    requires PlantOf(v.kv) == PlantOf(w.kv) && Get(v, x).prompt == Get(w, x).prompt && Fits(w, x)
    ensures Fits(v, x)
  {
    hide FullBlocks;
  }

  lemma {:induction false} TickGood(w: World)
    requires Good(w)
    ensures Good(Ticked(w, false))
  {
    hide Inv, IdOk, Ticked, Fits, InOrder, PlantOf, Thins;
    var v := Ticked(w, false);
    TickWorld(w);
    TickLine(w, false);
    TickPlant(w, false);
    assert Ready(v) by { SameReserve(w.kv, v.kv); }
    forall x | x in v.running || x in v.waiting ensures Fits(v, x) {
      assert x in v.running + v.waiting;
      ThinMembers(v.running + v.waiting, w.running + w.waiting, x);
      TickPrompt(w, false, x);
      FitsStill(w, v, x);
    }
  }

  lemma {:induction false} SameReserve(m: Manager, n: Manager)
    requires PlantOf(m) == PlantOf(n)
    ensures m.reserved == n.reserved
  {
  }

  lemma {:induction false} TickWorld(w: World)
    requires WorldOk(w, [])
    ensures WorldOk(Ticked(w, false), [])
  {
    hide IdOk, Life.Happen;
    Life.TickKeeps(w, Life.Tick(false));
  }

  /** The head of the line gets tokens in every tick; a running one keeps what it has computed. */
  lemma {:induction false} HeadServed(w: World, head: RequestId)
    requires Good(w) && w.running + w.waiting != [] && head == (w.running + w.waiting)[0]
    ensures var p := Schedule(w, false);
      head in p.scheduled && (w.running != [] ==> head == w.running[0] && Get(p.world, head).computed == Get(w, head).computed)
  {
    hide Inv, IdOk, Schedule, Fits, Ready, InOrder, Get;
    if w.running != [] {
      assert head == w.running[0] && head in w.running;
      HeadRuns(w);
    } else {
      assert head == w.waiting[0] && head in w.waiting;
      HeadEnters(w);
    }
  }

  lemma {:induction false} AdvancedFurther(r: Request)
    requires r.scheduled >= 1
    ensures Life.Advanced(r).computed >= r.computed + 1
  {
  }

  /** What a tick does to the head: it has computed more, and it is still first unless it is done. */
  lemma {:induction false} HeadAdvances(w: World, head: RequestId, rest: seq<RequestId>, v: World)
    requires Good(w) && w.running + w.waiting == [head] + rest && v == Ticked(w, false)
    ensures Get(v, head).computed >= (if w.running == [] then 0 else Get(w, head).computed) + 1
    ensures if Done(Get(v, head)) then Thins(v.running + v.waiting, rest) else v.running != [] && v.running[0] == head
  {
    hide Inv, IdOk, Schedule, Fits, Ready, InOrder, Get, Thins, Life.Advanced, Done, Life.Complete;
    var p := Schedule(w, false);
    HeadServed(w, head);
    TickPrompt(w, false, head);
    AdvancedFurther(Get(p.world, head));
    TickLine(w, false);
    assert p.world.running != [] && p.world.running[0] == head by {
      assert (p.world.running + p.world.waiting)[0] == p.world.running[0];
    }
    CompleteLine(p.world, p.scheduled);
    if Done(Get(v, head)) {
      ThinFront(v.running, p.world.running[1..], v.waiting);
      assert (p.world.running + p.world.waiting)[1..] == p.world.running[1..] + p.world.waiting;
      assert ([head] + rest)[1..] == rest;
    }
  }

  lemma {:induction false} SomeWork(w: World)
    requires Good(w) && w.running + w.waiting != []
    ensures Work(w) >= 1
  {
    hide Inv, IdOk, Fits, Ready, InOrder;
    var line := w.running + w.waiting;
    assert line == [line[0]] + line[1..];
    OwedHead(w, line[0], line[1..], line);
    assert line[0] in line;
    InLine(w, line[0]);
    assert w.running != [] ==> w.running[0] == line[0];
  }

  lemma {:induction false} StillOwed(w: World, id: RequestId)
    requires RequestOk(Get(w, id))
    ensures Get(w, id).computed < Steps(w, id)
  {
  }

  /** Every tick takes at least one step off the work left. */
  lemma {:induction false} TickWorks(w: World)
    requires Good(w) && w.running + w.waiting != []
    ensures Work(Ticked(w, false)) < Work(w)
  {
    hide Inv, IdOk, Fits, Ready, InOrder, Owed, Ticked, Thins, Done;
    var v, line := Ticked(w, false), w.running + w.waiting;
    var head, rest, out := line[0], line[1..], v.running + v.waiting;
    assert line == [head] + rest;
    HeadAdvances(w, head, rest, v);
    TickLine(w, false);
    forall x ensures Steps(v, x) == Steps(w, x) { TickPrompt(w, false, x); }
    OwedSame(w, v, out);
    OwedHead(w, head, rest, line);
    assert head in line;
    InLine(w, head);
    StillOwed(w, head);
    if Done(Get(v, head)) {
      OwedThins(w, out, rest);
    } else {
      OwedThins(w, out, line);
    }
  }

  lemma {:induction false} EmptyStays(w: World)
    requires Good(w) && w.running + w.waiting == []
    ensures Ticked(w, false).running + Ticked(w, false).waiting == []
  {
    hide Inv, IdOk, Fits, Ready, InOrder, Ticked;
    TickLine(w, false);
  }

  /** `n` ticks without throttling. */
  ghost function Ticks(w: World, n: nat): (v: World)
    requires Inv(w.kv)
    ensures Inv(v.kv)
    decreases n
  {
    if n == 0 then w else Ticks(Ticked(w, false), n - 1)
  }

  /** Nobody starves: once as many ticks have passed as there are tokens to read and write, everybody has finished. */
  lemma {:induction false} EverybodyFinishes(w: World, n: nat)
    requires Good(w) && n >= Work(w)
    ensures Ticks(w, n).running == [] && Ticks(w, n).waiting == []
    decreases n
  {
    hide Inv, IdOk, Fits, Ready, InOrder, Ticked, Work;
    if w.running + w.waiting != [] {
      SomeWork(w);
      TickWorks(w);
      TickGood(w);
      EverybodyFinishes(Ticked(w, false), n - 1);
    } else if n > 0 {
      EmptyStays(w);
      TickGood(w);
      NoWork(Ticked(w, false));
      EverybodyFinishes(Ticked(w, false), n - 1);
    }
  }

  lemma {:induction false} NoWork(w: World)
    requires w.running + w.waiting == []
    ensures Work(w) == 0
  {
  }
}
