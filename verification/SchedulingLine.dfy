/** The line of requests: a step never reorders it, it only moves the boundary between running and waiting. */
module SchedulingLine {
  import opened Common
  import opened KvPool
  import opened KvCache
  import opened KvManager
  import opened Scheduling
  import opened SchedulingSteps
  import opened SchedulingResults

  // ----- the line -----

  /** Running requests, those of them not yet looked at in this step, waiting requests. */
  function Line(w: World, queue: seq<RequestId>): seq<RequestId> {
    w.running + queue + w.waiting
  }

  lemma {:induction false} PreemptLine(w: World, id: RequestId)
    requires Inv(w.kv)
    ensures var v := Preempt(w, id);
      v.running == w.running && v.arrival == w.arrival && v.config == w.config && v.waiting == [id] + w.waiting
  {
    hide Inv, ReleaseOp, Restarted;
  }

  lemma {:induction false} ReserveLine(w: World, id: RequestId, queue: seq<RequestId>, preempted: seq<RequestId>)
    requires Inv(w.kv)
    ensures var r := ReserveSlot(w, id, queue, preempted);
      && r.world.running == w.running && r.world.arrival == w.arrival && r.world.config == w.config
      && (r.ok ==> r.queue + r.world.waiting == queue + w.waiting)
      && (!r.ok ==> r.queue == [] && r.world.waiting == [id] + queue + w.waiting)
    decreases |queue|
  {
    hide Inv, AppendOp, CanAppend, Preempt, KvReq;
    PreemptLine(w, id);
    if !CanAppend(w.kv, KvReq(w, id), 0) && queue != [] {
      var front, victim := queue[..|queue| - 1], queue[|queue| - 1];
      assert queue == front + [victim];
      PreemptLine(w, victim);
      ReserveLine(Preempt(w, victim), id, front, preempted + [victim]);
    }
  }

  lemma {:induction false} HeadMoves(front: seq<RequestId>, id: RequestId, queue: seq<RequestId>, waiting: seq<RequestId>,
                                     rest: seq<RequestId>, after: seq<RequestId>)
    requires rest + after == queue + waiting
    ensures (front + [id]) + rest + after == front + ([id] + queue) + waiting
  {
    assert (front + [id]) + rest + after == (front + [id]) + (rest + after);
    assert front + ([id] + queue) + waiting == (front + [id]) + (queue + waiting);
  }

  lemma {:induction false} RunHeadLine(p: Progress)
    requires Inv(p.world.kv) && p.queue != []
    ensures var q := RunHead(p);
      Line(q.world, q.queue) == Line(p.world, p.queue) && q.world.arrival == p.world.arrival && q.world.config == p.world.config
  {
    hide Inv, ReserveSlot, StepTokens, ContextBuild;
    var id, rest := p.queue[0], p.queue[1..];
    assert p.queue == [id] + rest;
    var s := ReserveSlot(p.world, id, rest, p.preempted);
    ReserveLine(p.world, id, rest, p.preempted);
    HeadMoves(p.world.running, id, rest, p.world.waiting, rest, p.world.waiting);
    if s.ok {
      HeadMoves(p.world.running, id, rest, p.world.waiting, s.queue, s.world.waiting);
    } else {
      assert p.world.running + ([id] + rest) + p.world.waiting == p.world.running + [] + ([id] + rest + p.world.waiting);
    }
  }

  lemma {:induction false} RunQueueLine(p: Progress)
    requires Inv(p.world.kv)
    ensures var q := RunQueue(p);
      && q.world.running + q.world.waiting == Line(p.world, p.queue)
      && q.world.arrival == p.world.arrival && q.world.config == p.world.config
    decreases |p.queue|
  {
    hide Inv, RunHead;
    if p.queue != [] {
      RunHeadLine(p);
      RunQueueLine(RunHead(p));
    }
  }

  lemma {:induction false} AdmitHeadLine(p: Progress)
    requires Inv(p.world.kv) && p.world.waiting != []
    ensures var q := AdmitHead(p);
      && q.world.running + q.world.waiting == p.world.running + p.world.waiting
      && q.world.arrival == p.world.arrival && q.world.config == p.world.config && q.preempted == p.preempted
  {
    hide Inv, AllocateOp, StepTokens, Admitted, HitTokens;
    var id := p.world.waiting[0];
    assert p.world.waiting == [id] + p.world.waiting[1..];
  }

  lemma {:induction false} AdmitQueueLine(p: Progress)
    requires Inv(p.world.kv)
    ensures var q := AdmitQueue(p);
      && q.world.running + q.world.waiting == p.world.running + p.world.waiting
      && q.world.arrival == p.world.arrival && q.world.config == p.world.config
    decreases |p.world.waiting|
  {
    hide Inv, AdmitHead, TriesNext, Admissible;
    if p.world.waiting != [] && TriesNext(p) && Admissible(p) {
      AdmitHeadLine(p);
      AdmitQueueLine(AdmitHead(p));
    } else if p.world.waiting == [] {
      NobodyTried(p);
    }
  }

  lemma {:induction false} NobodyTried(p: Progress)
    requires p.world.waiting == []
    ensures !TriesNext(p)
  {
  }

  /**
    The running requests in order of arrival followed by the waiting ones make the same line before and
    after a step: whoever is preempted goes back to exactly the place behind the remaining running
    requests, and whoever is admitted comes from exactly there.
   */
  lemma {:induction false} StepKeepsLine(w: World, throttle: bool)
    requires Inv(w.kv)
    ensures var v := Schedule(w, throttle).world;
      && v.running + v.waiting == ByArrival(w, w.running, |w.running|) + w.waiting
      && v.arrival == w.arrival && v.config == w.config
  {
    hide Inv, RunQueue, AdmitQueue, ByArrival;
    var p := Begin(w, throttle);
    RunQueueLine(p);
    assert Line(p.world, p.queue) == p.queue + w.waiting;
    AdmitQueueLine(RunQueue(p));
  }

  // ----- a sorted line stays as it is -----

  lemma {:induction false} InsertLast(w: World, sorted: seq<RequestId>, id: RequestId)
    requires forall i :: 0 <= i < |sorted| ==> Arrival(w, sorted[i]) <= Arrival(w, id)
    ensures InsertByArrival(w, sorted, id) == sorted + [id]
  {
  }

  lemma {:induction false} SortedStays(w: World, ids: seq<RequestId>, n: nat)
    requires n <= |ids| && Sorted(w, ids)
    ensures ByArrival(w, ids, n) == ids[..n]
    decreases n
  {
    hide InsertByArrival, Arrival;
    if n > 0 {
      SortedStays(w, ids, n - 1);
      InsertLast(w, ids[..n - 1], ids[n - 1]);
      assert ids[..n] == ids[..n - 1] + [ids[n - 1]];
    }
  }

  /** First come, first served: nobody in the line arrived before somebody in front. */
  ghost predicate InOrder(w: World) {
    Sorted(w, w.running + w.waiting)
  }

  lemma {:induction false} RunningInOrder(w: World)
    requires InOrder(w)
    ensures Sorted(w, w.running) && ByArrival(w, w.running, |w.running|) == w.running
  {
    var line := w.running + w.waiting;
    forall i, j | 0 <= i < j < |w.running| ensures Arrival(w, w.running[i]) <= Arrival(w, w.running[j]) {
      assert line[i] == w.running[i] && line[j] == w.running[j];
    }
    SortedStays(w, w.running, |w.running|);
    assert w.running[..|w.running|] == w.running;
  }

  /** With first come, first served so far, a step leaves the line exactly as it is. */
  lemma {:induction false} StepInOrder(w: World, throttle: bool)
    requires Inv(w.kv) && InOrder(w)
    ensures var v := Schedule(w, throttle).world;
      v.running + v.waiting == w.running + w.waiting && v.arrival == w.arrival && v.config == w.config && InOrder(v)
  {
    hide Schedule, Inv, ByArrival, Arrival;
    RunningInOrder(w);
    StepKeepsLine(w, throttle);
    SameOrder(w, Schedule(w, throttle).world, w.running + w.waiting);
  }

  lemma {:induction false} SameOrder(w: World, v: World, line: seq<RequestId>)
    requires Sorted(w, line) && v.arrival == w.arrival
    ensures Sorted(v, line)
  {
  }
}
