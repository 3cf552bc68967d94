/** What a whole scheduling step guarantees. */
module SchedulingResults {
  import opened Common
  import opened KvPool
  import opened KvCache
  import opened KvManager
  import opened Scheduling
  import opened SchedulingSteps

  lemma {:induction false} AdmitQueueKeeps(p: Progress, everyone: multiset<RequestId>, budget: Option<nat>)
    requires ProgressOk(p, everyone, budget) && p.queue == [] && p.preempted == []
    ensures ProgressOk(AdmitQueue(p), everyone, budget) && AdmitQueue(p).queue == [] && AdmitQueue(p).preempted == []
    decreases |p.world.waiting|
  {
    hide Inv, ProgressOk, AdmitHead, Admissible, BelowOccupancy;
    ProgressInv(p, everyone, budget);
    if TriesNext(p) && Admissible(p) {
      AdmitHeadKeeps(p, everyone, budget);
      AdmitQueueKeeps(AdmitHead(p), everyone, budget);
    }
  }

  lemma {:induction false} ProgressInv(p: Progress, everyone: multiset<RequestId>, budget: Option<nat>)
    requires ProgressOk(p, everyone, budget)
    ensures Inv(p.world.kv)
  {
  }

  // ----- the queue by arrival -----

  lemma {:induction false} InsertPermutes(w: World, sorted: seq<RequestId>, id: RequestId)
    ensures multiset(InsertByArrival(w, sorted, id)) == multiset(sorted) + multiset{id}
    decreases |sorted|
  {
    if !(sorted == [] || Arrival(w, sorted[|sorted| - 1]) <= Arrival(w, id)) {
      InsertPermutes(w, sorted[..|sorted| - 1], id);
      assert sorted == sorted[..|sorted| - 1] + [sorted[|sorted| - 1]];
    }
  }

  lemma {:induction false} ByArrivalPermutes(w: World, ids: seq<RequestId>, n: nat)
    requires n <= |ids|
    ensures multiset(ByArrival(w, ids, n)) == multiset(ids[..n])
    decreases n
  {
    hide InsertByArrival;
    if n > 0 {
      ByArrivalPermutes(w, ids, n - 1);
      InsertPermutes(w, ByArrival(w, ids, n - 1), ids[n - 1]);
      assert ids[..n] == ids[..n - 1] + [ids[n - 1]];
    } else {
      assert ids[..n] == [];
    }
  }

  ghost predicate Sorted(w: World, queue: seq<RequestId>) {
    forall i, j :: 0 <= i < j < |queue| ==> Arrival(w, queue[i]) <= Arrival(w, queue[j])
  }

  lemma {:induction false} InsertSorts(w: World, sorted: seq<RequestId>, id: RequestId)
    requires Sorted(w, sorted)
    ensures Sorted(w, InsertByArrival(w, sorted, id))
    decreases |sorted|
  {
    if !(sorted == [] || Arrival(w, sorted[|sorted| - 1]) <= Arrival(w, id)) {
      var front, last := sorted[..|sorted| - 1], sorted[|sorted| - 1];
      InsertSorts(w, front, id);
      InsertPermutes(w, front, id);
      var all := InsertByArrival(w, front, id);
      forall i | 0 <= i < |all| ensures Arrival(w, all[i]) <= Arrival(w, last) {
        assert all[i] in multiset(all);
        if all[i] != id {
          assert all[i] in multiset(front);
          var k :| 0 <= k < |front| && front[k] == all[i];
          assert sorted[k] == front[k];
        }
      }
    }
  }

  lemma {:induction false} ByArrivalSorts(w: World, ids: seq<RequestId>, n: nat)
    requires n <= |ids|
    ensures Sorted(w, ByArrival(w, ids, n))
    decreases n
  {
    if n > 0 {
      ByArrivalSorts(w, ids, n - 1);
      InsertSorts(w, ByArrival(w, ids, n - 1), ids[n - 1]);
    }
  }

  // ----- the whole step -----

  lemma {:induction false} BeginOk(w: World, throttle: bool)
    requires WorldOk(w, [])
    ensures ProgressOk(Begin(w, throttle), Everyone(w, []), w.config.budget)
  {
    var p := Begin(w, throttle);
    ByArrivalPermutes(w, w.running, |w.running|);
    assert w.running[..|w.running|] == w.running;
    assert multiset(p.queue) == multiset(w.running);
    forall id ensures IdOk(p.world, p.queue, id) {
      assert IdOk(w, [], id);
      assert id in p.queue <==> id in multiset(p.queue);
      assert id in w.running <==> id in multiset(w.running);
    }
  }

  lemma {:induction false} BoundIrrelevant(p: Progress, bound: bool, everyone: multiset<RequestId>, budget: Option<nat>)
    requires ProgressOk(p, everyone, budget)
    ensures ProgressOk(p.(world := p.world.(capacityBound := bound)), everyone, budget)
  {
    var q := p.(world := p.world.(capacityBound := bound));
    forall id ensures IdOk(q.world, q.queue, id) { assert IdOk(p.world, p.queue, id); }
    SameTokens(p.world, q.world, p.scheduled, |p.scheduled|);
    forall k | 0 <= k < |q.scheduled| ensures q.scheduled[k] in q.world.running && ScheduledOk(q.world, q.scheduled[k]) {
      assert ScheduledOk(p.world, p.scheduled[k]);
    }
  }

  lemma {:induction false} ScheduleKeeps(w: World, throttle: bool)
    requires WorldOk(w, [])
    ensures ProgressOk(Schedule(w, throttle), Everyone(w, []), w.config.budget) && Schedule(w, throttle).queue == []
  {
    hide Inv, ProgressOk, RunQueue, AdmitQueue, Begin;
    var everyone, budget := Everyone(w, []), w.config.budget;
    BeginOk(w, throttle);
    ProgressInv(Begin(w, throttle), everyone, budget);
    RunQueueKeeps(Begin(w, throttle), everyone, budget);
    var ran := RunQueue(Begin(w, throttle));
    if ran.preempted == [] {
      AdmitQueueKeeps(ran, everyone, budget);
      var p := AdmitQueue(ran);
      BoundIrrelevant(p, p.world.waiting != [], everyone, budget);
    }
  }

  /** Nobody is both running and waiting. */
  lemma {:induction false} Apart(p: Progress, everyone: multiset<RequestId>, budget: Option<nat>, id: RequestId)
    requires ProgressOk(p, everyone, budget)
    ensures !(id in p.scheduled && id in p.preempted)
    ensures p.queue == [] && id in p.world.waiting ==> Table(p.world.kv, id) == []
  {
    hide HoldsOk, RequestOk, Inv, ScheduledOk;
    assert IdOk(p.world, p.queue, id);
    assert id in p.scheduled <==> id in multiset(p.scheduled);
    assert id in p.preempted <==> id in multiset(p.preempted);
    assert id in p.world.waiting <==> id in multiset(p.world.waiting);
    assert id in p.world.running <==> id in multiset(p.world.running);
  }

  /** What a finished step promises. */
  ghost predicate StepPromise(w: World, p: Progress) {
    && multiset(p.world.running) + multiset(p.world.waiting) == multiset(w.running) + multiset(w.waiting)
    && multiset(p.scheduled) <= multiset(p.world.running) && multiset(p.preempted) <= multiset(p.world.waiting)
    && (forall id :: !(id in p.scheduled && id in p.preempted))
    && (w.config.budget.Some? ==> TokenSum(p.world, p.scheduled, |p.scheduled|) <= w.config.budget.value)
    && (forall k :: 0 <= k < |p.scheduled| ==> ScheduledOk(p.world, p.scheduled[k]))
    && (forall id :: id in p.world.waiting ==> Table(p.world.kv, id) == [])
  }

  lemma {:induction false} FinishedStep(w: World, p: Progress)
    requires ProgressOk(p, Everyone(w, []), w.config.budget) && p.queue == []
    ensures StepPromise(w, p)
  {
    hide WorldOk, ScheduledOk;
    forall id ensures !(id in p.scheduled && id in p.preempted) && (id in p.world.waiting ==> Table(p.world.kv, id) == []) {
      Apart(p, Everyone(w, []), w.config.budget, id);
    }
    assert multiset(p.queue) == multiset{};
    forall x ensures (multiset(p.world.running) + multiset(p.world.waiting))[x] == (multiset(w.running) + multiset(w.waiting))[x] {
      assert Everyone(p.world, p.queue)[x] == Everyone(w, [])[x];
    }
  }

  /**
    A step permutes running and waiting requests.  It schedules running requests only, each once and
    within the token budget, and a request scheduled to decode holds exactly its logical blocks.
    Preempted requests wait, each once, and hold nothing.
   */
  lemma {:induction false} StepConserves(w: World, throttle: bool)
    requires WorldOk(w, [])
    ensures StepPromise(w, Schedule(w, throttle))
  {
    hide Schedule, ProgressOk, StepPromise;
    ScheduleKeeps(w, throttle);
    FinishedStep(w, Schedule(w, throttle));
  }

  // ----- first come, first served -----

  ghost predicate Prior(w: World, xs: seq<RequestId>, ys: seq<RequestId>) {
    forall x, y :: x in xs && y in ys ==> Arrival(w, x) <= Arrival(w, y)
  }

  /** Scheduled before queued before preempted, by arrival. */
  ghost predicate Aged(p: Progress) {
    && Sorted(p.world, p.queue)
    && Prior(p.world, p.scheduled, p.queue) && Prior(p.world, p.scheduled, p.preempted) && Prior(p.world, p.queue, p.preempted)
  }

  lemma {:induction false} ShortenedMember(queue: seq<RequestId>, rest: seq<RequestId>, before: seq<RequestId>, after: seq<RequestId>,
                                           extra: multiset<RequestId>, y: RequestId)
    requires Shortened(queue, rest, before, after, extra) && y in after
    ensures y in before || y in queue[|rest|..] || y in extra
  {
    var gone := queue[|rest|..];
    assert queue == rest + gone;
    assert multiset(queue) == multiset(rest) + multiset(gone);
    assert (multiset(after) + multiset(rest))[y] == (multiset(before) + multiset(queue) + extra)[y];
    assert y in multiset(after);
    assert y in before <==> y in multiset(before);
    assert y in gone <==> y in multiset(gone);
  }

  lemma {:induction false} HeadFirst(w: World, queue: seq<RequestId>)
    requires queue != [] && Sorted(w, queue)
    ensures Sorted(w, queue[1..]) && Prior(w, [queue[0]], queue[1..])
  {
    forall y | y in queue[1..] ensures Arrival(w, queue[0]) <= Arrival(w, y) {
      var k :| 0 <= k < |queue[1..]| && queue[1..][k] == y;
      assert queue[k + 1] == y;
    }
  }

  lemma {:induction false} SplitQueue(w: World, queue: seq<RequestId>, n: nat)
    requires Sorted(w, queue) && n <= |queue|
    ensures Sorted(w, queue[..n]) && Prior(w, queue[..n], queue[n..])
  {
    forall x, y | x in queue[..n] && y in queue[n..] ensures Arrival(w, x) <= Arrival(w, y) {
      var i :| 0 <= i < n && queue[..n][i] == x;
      var j :| 0 <= j < |queue[n..]| && queue[n..][j] == y;
      assert queue[i] == x && queue[n + j] == y;
    }
  }

  lemma {:induction false} PriorToAll(w: World, xs: seq<RequestId>, queue: seq<RequestId>, rest: seq<RequestId>, before: seq<RequestId>,
                                      after: seq<RequestId>, last: seq<RequestId>)
    requires Shortened(queue, rest, before, after, multiset(last))
    requires Prior(w, xs, before) && Prior(w, xs, queue[|rest|..]) && Prior(w, xs, last)
    ensures Prior(w, xs, after)
  {
    forall x, y | x in xs && y in after ensures Arrival(w, x) <= Arrival(w, y) {
      ShortenedMember(queue, rest, before, after, multiset(last), y);
    }
  }

  lemma {:induction false} PriorToPart(w: World, xs: seq<RequestId>, queue: seq<RequestId>, lo: nat, hi: nat)
    requires Prior(w, xs, queue) && lo <= hi <= |queue|
    ensures Prior(w, xs, queue[lo..hi])
  {
  }

  lemma {:induction false} PartPrior(w: World, queue: seq<RequestId>, lo: nat, hi: nat, ys: seq<RequestId>)
    requires Prior(w, queue, ys) && lo <= hi <= |queue|
    ensures Prior(w, queue[lo..hi], ys)
  {
  }

  lemma {:induction false} EmptyPrior(w: World, xs: seq<RequestId>)
    ensures Prior(w, xs, []) && Prior(w, [], xs)
  {
  }

  lemma {:induction false} ShortenedPrefix(queue: seq<RequestId>, rest: seq<RequestId>, before: seq<RequestId>, after: seq<RequestId>,
                                           extra: multiset<RequestId>)
    requires Shortened(queue, rest, before, after, extra)
    ensures |rest| <= |queue| && rest == queue[..|rest|]
  {
  }

  /** The queue cut into its head, what stays and what goes. */
  lemma {:induction false} CutQueue(w: World, queue: seq<RequestId>, n: nat, older: seq<RequestId>, younger: seq<RequestId>)
    requires queue != [] && 1 + n <= |queue| && Sorted(w, queue) && Prior(w, older, queue) && Prior(w, queue, younger)
    ensures var id, kept, gone := [queue[0]], queue[1..][..n], queue[1..][n..];
      && Sorted(w, kept) && Prior(w, id, kept) && Prior(w, id, gone) && Prior(w, kept, gone)
      && Prior(w, older, id) && Prior(w, older, kept) && Prior(w, older, gone)
      && Prior(w, id, younger) && Prior(w, kept, younger)
  {
    hide Prior, Sorted;
    var id, rest := queue[0], queue[1..];
    HeadFirst(w, queue);
    SplitQueue(w, rest, n);
    assert rest == queue[1..|queue|] && rest[..n] == queue[1..n + 1] && rest[n..] == queue[n + 1..|queue|];
    PriorToPart(w, older, queue, 1, n + 1);
    PriorToPart(w, older, queue, n + 1, |queue|);
    PriorToPart(w, older, queue, 0, 1);
    PriorToPart(w, [id], rest, 0, n);
    PriorToPart(w, [id], rest, n, |rest|);
    PartPrior(w, queue, 0, 1, younger);
    PartPrior(w, queue, 1, n + 1, younger);
    assert queue[0..1] == [id] && rest[0..n] == rest[..n] && rest[n..|rest|] == rest[n..];
  }

  /** A reservation takes its victims from the young end of the queue. */
  lemma {:induction false} ReserveAged(p: Progress, s: Reserved)
    requires Aged(p) && p.queue != [] && (!s.ok ==> s.queue == [])
    requires Shortened(p.queue[1..], s.queue, p.preempted, s.preempted, if s.ok then multiset{} else multiset{p.queue[0]})
    ensures var w := p.world;
      && Sorted(w, s.queue) && Prior(w, p.scheduled, s.queue) && Prior(w, p.scheduled, s.preempted) && Prior(w, s.queue, s.preempted)
      && Prior(w, [p.queue[0]], s.queue) && (s.ok ==> Prior(w, [p.queue[0]], s.preempted))
  {
    hide Prior, Sorted, Shortened;
    var w, id, rest := p.world, p.queue[0], p.queue[1..];
    var last := if s.ok then [] else [id];
    assert multiset(last) == if s.ok then multiset{} else multiset{id};
    ShortenedPrefix(rest, s.queue, p.preempted, s.preempted, multiset(last));
    CutQueue(w, p.queue, |s.queue|, p.scheduled, p.preempted);
    EmptyPrior(w, p.scheduled);
    EmptyPrior(w, s.queue);
    EmptyPrior(w, [id]);
    PriorToAll(w, p.scheduled, rest, s.queue, p.preempted, s.preempted, last);
    PriorToAll(w, s.queue, rest, s.queue, p.preempted, s.preempted, last);
    if s.ok { PriorToAll(w, [id], rest, s.queue, p.preempted, s.preempted, last); }
  }

  lemma {:induction false} AppendPrior(w: World, xs: seq<RequestId>, id: RequestId, ys: seq<RequestId>)
    requires Prior(w, xs, ys) && Prior(w, [id], ys)
    ensures Prior(w, xs + [id], ys)
  {
    assert id in [id];
  }

  lemma {:induction false} AgedFrom(p: Progress, q: Progress)
    requires q.world.arrival == p.world.arrival
    requires Sorted(p.world, q.queue) && Prior(p.world, q.scheduled, q.queue) && Prior(p.world, q.scheduled, q.preempted)
    requires Prior(p.world, q.queue, q.preempted)
    ensures Aged(q)
  {
    assert forall x :: Arrival(q.world, x) == Arrival(p.world, x);
  }

  lemma {:induction false} RunHeadAged(p: Progress, everyone: multiset<RequestId>, budget: Option<nat>)
    requires ProgressOk(p, everyone, budget) && p.queue != [] && Aged(p)
    ensures Aged(RunHead(p)) && RunHead(p).world.arrival == p.world.arrival
  {
    hide Prior, Sorted, Inv, StepTokens, ReserveSlot, WorldOk, Shortened, SchedulingSteps.ScheduledOk;
    ProgressInv(p, everyone, budget);
    var w, id, rest := p.world, p.queue[0], p.queue[1..];
    assert p.queue == [id] + rest;
    var r := Get(w, id);
    var tokens := StepTokens(r, p.budget, p.limit);
    HeadFirst(w, p.queue);
    assert rest == p.queue[1..|p.queue|] && [id] == p.queue[0..1];
    PriorToPart(w, p.scheduled, p.queue, 1, |p.queue|);
    PartPrior(w, p.queue, 1, |p.queue|, p.preempted);
    PartPrior(w, p.queue, 0, 1, p.preempted);
    AppendPrior(w, p.scheduled, id, rest);
    AppendPrior(w, p.scheduled, id, p.preempted);
    if !((p.deferred && r.pending) || tokens == 0 || ContextBuild(r)) {
      ReserveSlotKeeps(w, id, rest, p.preempted);
      var s := ReserveSlot(w, id, rest, p.preempted);
      ReserveAged(p, s);
      AppendPrior(w, p.scheduled, id, s.queue);
      if s.ok { AppendPrior(w, p.scheduled, id, s.preempted); }
    }
    AgedFrom(p, RunHead(p));
  }

  lemma {:induction false} RunQueueAged(p: Progress, everyone: multiset<RequestId>, budget: Option<nat>)
    requires ProgressOk(p, everyone, budget) && Aged(p)
    ensures Aged(RunQueue(p)) && RunQueue(p).world.arrival == p.world.arrival
    decreases |p.queue|
  {
    hide ProgressOk, Aged, Inv, RunHead;
    ProgressInv(p, everyone, budget);
    if p.queue != [] {
      RunHeadAged(p, everyone, budget);
      RunHeadKeeps(p, everyone, budget);
      RunQueueAged(RunHead(p), everyone, budget);
    }
  }

  lemma {:induction false} AgedPair(p: Progress, w: World, s: RequestId, x: RequestId)
    requires Aged(p) && p.world.arrival == w.arrival && s in p.scheduled && x in p.preempted
    ensures Arrival(w, s) <= Arrival(w, x)
  {
    assert Arrival(p.world, s) <= Arrival(p.world, x);
  }

  lemma {:induction false} RanFairly(w: World, throttle: bool, ran: Progress)
    requires WorldOk(w, []) && Inv(w.kv) && Inv(Begin(w, throttle).world.kv) && ran == RunQueue(Begin(w, throttle))
    ensures ProgressOk(ran, Everyone(w, []), w.config.budget)
    ensures forall s, x :: s in ran.scheduled && x in ran.preempted ==> Arrival(w, s) <= Arrival(w, x)
    ensures forall s :: s in ran.scheduled ==> s in w.running
  {
    hide ProgressOk, Inv, RunQueue, Aged, WorldOk, Arrival;
    var everyone, budget, start := Everyone(w, []), w.config.budget, Begin(w, throttle);
    BeginOk(w, throttle);
    BeginAged(w, throttle);
    RunQueueAged(start, everyone, budget);
    RunQueueKeeps(start, everyone, budget);
    forall s, x | s in ran.scheduled && x in ran.preempted ensures Arrival(w, s) <= Arrival(w, x) { AgedPair(ran, w, s, x); }
    RunQueueWithin(start);
    forall s | s in ran.scheduled ensures s in w.running { BeginMembers(w, throttle, s); }
  }

  /** A step never preempts a request that arrived before one it schedules, and admits nobody if it preempts somebody. */
  lemma {:induction false} StepIsFair(w: World, throttle: bool)
    requires WorldOk(w, [])
    ensures var p := Schedule(w, throttle);
      && (forall s, x :: s in p.scheduled && x in p.preempted ==> Arrival(w, s) <= Arrival(w, x))
      && (p.preempted != [] ==> forall s :: s in p.scheduled ==> s in w.running)
  {
    hide ProgressOk, Inv, RunQueue, AdmitQueue, Arrival, Everyone, IdOk;
    var ran := RunQueue(Begin(w, throttle));
    RanFairly(w, throttle, ran);
    if ran.preempted == [] { AdmitQueueKeeps(ran, Everyone(w, []), w.config.budget); }
  }

  lemma {:induction false} BeginAged(w: World, throttle: bool)
    ensures Aged(Begin(w, throttle)) && Begin(w, throttle).world.arrival == w.arrival
  {
    ByArrivalSorts(w, w.running, |w.running|);
    AgedFrom(Begin(w, throttle).(world := w), Begin(w, throttle));
  }

  lemma {:induction false} BeginMembers(w: World, throttle: bool, id: RequestId)
    ensures id in Begin(w, throttle).queue <==> id in w.running
  {
    ByArrivalPermutes(w, w.running, |w.running|);
    assert w.running[..|w.running|] == w.running;
    assert id in w.running <==> id in multiset(w.running);
    assert id in Begin(w, throttle).queue <==> id in multiset(Begin(w, throttle).queue);
  }

  /** The running phase schedules only what was in the queue. */
  lemma {:induction false} RunQueueWithin(p: Progress)
    requires Inv(p.world.kv)
    ensures forall id :: id in RunQueue(p).scheduled ==> id in p.scheduled || id in p.queue
    decreases |p.queue|
  {
    hide Inv;
    if p.queue != [] {
      RunHeadWithin(p);
      hide RunHead;
      RunQueueWithin(RunHead(p));
    }
  }

  lemma {:induction false} RunHeadWithin(p: Progress)
    requires Inv(p.world.kv) && p.queue != []
    ensures forall id :: id in RunHead(p).scheduled ==> id in p.scheduled || id == p.queue[0]
    ensures forall id :: id in RunHead(p).queue ==> id in p.queue
  {
    hide Inv, StepTokens, ReserveSlot;
    ReservePrefix(p.world, p.queue[0], p.queue[1..], p.preempted);
  }

  lemma {:induction false} ReservePrefix(w: World, id: RequestId, queue: seq<RequestId>, preempted: seq<RequestId>)
    requires Inv(w.kv)
    ensures forall x :: x in ReserveSlot(w, id, queue, preempted).queue ==> x in queue
    decreases |queue|
  {
    hide Inv, AppendOp, Preempt, CanAppend;
    if !CanAppend(w.kv, KvReq(w, id), 0) && queue != [] {
      var victim := queue[|queue| - 1];
      ReservePrefix(Preempt(w, victim), id, queue[..|queue| - 1], preempted + [victim]);
    }
  }
}
