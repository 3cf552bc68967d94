/** The scheduler from its empty start: what holds in every state that any sequence of events can reach. */
module SchedulingReachable {
  import opened Common
  import opened PrefixKeys
  import opened KvPool
  import opened KvManager
  import opened KvCapacity
  import KvRuns
  import opened Scheduling
  import opened SchedulingSteps
  import opened SchedulingResults
  import opened SchedulingProgress
  import opened SchedulingLine
  import opened SchedulingLiveness
  import opened SchedulingRuns

  /** Nobody has arrived and no block is in use. */
  ghost function NewWorld(config: Config, blockSize: nat, watermark: nat, gpuBlocks: nat, cpuBlocks: nat): (w: World)
    ensures Inv(w.kv)
  {
    World(config, map[], map[], [], [], KvRuns.NewManager(blockSize, watermark, gpuBlocks, cpuBlocks), false)
  }

  lemma {:induction false} NewWorldOk(config: Config, blockSize: nat, watermark: nat, gpuBlocks: nat, cpuBlocks: nat)
    requires blockSize > 0
    ensures WorldOk(NewWorld(config, blockSize, watermark, gpuBlocks, cpuBlocks), [])
  {
    hide Inv;
    var w := NewWorld(config, blockSize, watermark, gpuBlocks, cpuBlocks);
    forall id ensures IdOk(w, [], id) { assert Everyone(w, []) == multiset{}; }
  }

  // ----- what no event changes -----

  lemma {:induction false} EventSetting(w: World, e: Event)
    requires Inv(w.kv)
    ensures Happen(w, e).config == w.config && PlantOf(Happen(w, e).kv) == PlantOf(w.kv)
  {
    hide Inv, PlantOf, Schedule, Complete, ReleaseOp;
    match e {
      case Arrive(_, _, _) =>
      case Tick(throttle) =>
        StepKeepsLine(w, throttle);
        CompleteLine(Schedule(w, throttle).world, Schedule(w, throttle).scheduled);
        TickPlant(w, throttle);
      case Cancel(id) => ReleasePlant(w.kv, id);
    }
  }

  lemma {:induction false} RunSetting(w: World, events: seq<Event>)
    requires Inv(w.kv)
    ensures Run(w, events).config == w.config && PlantOf(Run(w, events).kv) == PlantOf(w.kv)
    decreases |events|
  {
    hide Inv, PlantOf, Happen;
    if events != [] {
      EventSetting(w, events[0]);
      RunSetting(Happen(w, events[0]), events[1..]);
    }
  }

  // ----- the sequence limit -----

  ghost predicate WithinLimit(w: World) {
    w.config.maxSeqs.Some? ==> |w.running| <= w.config.maxSeqs.value
  }

  lemma {:induction false} ThinShorter(out: seq<RequestId>, ids: seq<RequestId>)
    requires Thins(out, ids)
    ensures |out| <= |ids|
    decreases |ids|
  {
    if ids != [] {
      var front := ids[..|ids| - 1];
      if Thins(out, front) { ThinShorter(out, front); } else { ThinShorter(out[..|out| - 1], front); }
    }
  }

  lemma {:induction false} EventLimit(w: World, e: Event)
    requires WorldOk(w, []) && WithinLimit(w)
    ensures WithinLimit(Happen(w, e))
  {
    hide Inv, IdOk, Schedule, Complete, ReleaseOp, Thins;
    match e {
      case Arrive(_, _, _) =>
      case Tick(throttle) =>
        var p := Schedule(w, throttle);
        if w.config.maxSeqs.Some? { StepRespectsLimit(w, throttle); }
        StepKeepsLine(w, throttle);
        CompleteLine(p.world, p.scheduled);
        ThinShorter(Complete(p.world, p.scheduled).running, p.world.running);
      case Cancel(id) =>
        WithoutThins(w.running, id);
        ThinShorter(Without(w.running, id), w.running);
    }
  }

  lemma {:induction false} EventKeeps(w: World, e: Event)
    requires WorldOk(w, []) && Lawful(w, e)
    ensures WorldOk(Happen(w, e), [])
  {
    hide IdOk, Happen;
    match e {
      case Arrive(_, _, _) => ArriveKeeps(w, e);
      case Tick(_) => TickKeeps(w, e);
      case Cancel(_) => CancelKeeps(w, e);
    }
  }

  lemma {:induction false} RunLimit(w: World, events: seq<Event>)
    requires WorldOk(w, []) && WithinLimit(w) && LawfulRun(w, events)
    ensures WithinLimit(Run(w, events))
    decreases |events|
  {
    hide IdOk, Happen, WithinLimit;
    if events != [] {
      EventLimit(w, events[0]);
      EventKeeps(w, events[0]);
      RunLimit(Happen(w, events[0]), events[1..]);
    }
  }

  // ----- first come, first served -----

  /** Requests arrive no earlier than those already in the line. */
  ghost predicate Timely(w: World, e: Event) {
    e.Arrive? ==> forall x :: x in w.running || x in w.waiting ==> Arrival(w, x) <= e.time
  }

  ghost predicate TimelyRun(w: World, events: seq<Event>)
    requires Inv(w.kv)
    decreases |events|
  {
    events == [] || (Timely(w, events[0]) && TimelyRun(Happen(w, events[0]), events[1..]))
  }

  lemma {:induction false} ArriveInOrder(w: World, id: RequestId, prompt: Prompt, time: real)
    requires Inv(w.kv) && InOrder(w) && Timely(w, Arrive(id, prompt, time)) && Lawful(w, Arrive(id, prompt, time))
    ensures InOrder(Happen(w, Arrive(id, prompt, time)))
  {
    hide Inv;
    var v := Happen(w, Arrive(id, prompt, time));
    var line := w.running + w.waiting;
    assert v.running + v.waiting == line + [id];
    forall i | 0 <= i < |line| ensures line[i] != id && Arrival(v, line[i]) == Arrival(w, line[i]) <= time {
      assert line[i] in line;
    }
  }

  lemma {:induction false} CancelInOrder(w: World, id: RequestId)
    requires Inv(w.kv) && InOrder(w)
    ensures InOrder(Happen(w, Cancel(id)))
  {
    hide Inv, Thins, Sorted, ReleaseOp, Without;
    var v := Happen(w, Cancel(id));
    WithoutThins(w.running, id);
    WithoutThins(w.waiting, id);
    ThinFront(v.running, w.running, w.waiting);
    ThinSorted(w, v.running + w.waiting, w.running + w.waiting);
    ThinBack(v.running, v.waiting, w.waiting);
    ThinSorted(w, v.running + v.waiting, v.running + w.waiting);
    SameOrder(w, v, v.running + v.waiting);
  }

  lemma {:induction false} EventInOrder(w: World, e: Event)
    requires Inv(w.kv) && InOrder(w) && Timely(w, e) && Lawful(w, e)
    ensures InOrder(Happen(w, e))
  {
    hide Inv, InOrder, Timely, Lawful, Happen;
    match e {
      case Arrive(id, prompt, time) => ArriveInOrder(w, id, prompt, time);
      case Tick(throttle) => TickInOrder(w, throttle);
      case Cancel(id) => CancelInOrder(w, id);
    }
  }

  lemma {:induction false} TickInOrder(w: World, throttle: bool)
    requires Inv(w.kv) && InOrder(w)
    ensures InOrder(Happen(w, Tick(throttle)))
  {
    hide Inv, InOrder, Happen;
    TickLine(w, throttle);
  }

  /** At every moment of a timely run the running requests arrived no later than the waiting ones, and both are sorted. */
  lemma {:induction false} RunInOrder(w: World, events: seq<Event>)
    requires WorldOk(w, []) && InOrder(w) && LawfulRun(w, events) && TimelyRun(w, events)
    ensures InOrder(Run(w, events))
    decreases |events|
  {
    hide IdOk, Happen, InOrder, Timely;
    if events != [] {
      EventInOrder(w, events[0]);
      EventKeeps(w, events[0]);
      RunInOrder(Happen(w, events[0]), events[1..]);
    }
  }

  // ----- the results -----

  /** The running request that arrived first. */
  function Oldest(w: World): RequestId
    requires w.running != []
  {
    var queue := ByArrival(w, w.running, |w.running|);
    if queue == [] then w.running[0] else queue[0]
  }

  ghost predicate FairStep(w: World, p: Progress) {
    && (forall s, x :: s in p.scheduled && x in p.preempted ==> Arrival(w, s) <= Arrival(w, x))
    && (p.preempted != [] ==> forall s :: s in p.scheduled ==> s in w.running)
  }

  /**
    Whatever has happened since the start, the next step conserves requests, budget and blocks, is fair,
    keeps the line and the sequence limit, and if unthrottled runs the oldest running request as long as
    its blocks fit the pool.
   */
  lemma {:induction false} EveryStep(config: Config, blockSize: nat, watermark: nat, gpuBlocks: nat, cpuBlocks: nat, events: seq<Event>, throttle: bool)
    requires blockSize > 0
    requires LawfulRun(NewWorld(config, blockSize, watermark, gpuBlocks, cpuBlocks), events)
    ensures var w := Run(NewWorld(config, blockSize, watermark, gpuBlocks, cpuBlocks), events);
      var p := Schedule(w, throttle);
      && WorldOk(w, []) && StepPromise(w, p) && FairStep(w, p)
      && p.world.running + p.world.waiting == ByArrival(w, w.running, |w.running|) + w.waiting
      && (config.maxSeqs.Some? ==> |p.world.running| <= config.maxSeqs.value)
      && (!throttle && (config.budget.Some? ==> config.budget.value >= 1) && w.running != [] ==>
            LogicalBlocks(blockSize, Get(w, Oldest(w))) <= gpuBlocks ==> Oldest(w) in p.scheduled)
  {
    hide Inv, IdOk, Schedule, StepPromise, LawfulRun, Run, ByArrival, LogicalBlocks, Arrival;
    var start := NewWorld(config, blockSize, watermark, gpuBlocks, cpuBlocks);
    NewWorldOk(config, blockSize, watermark, gpuBlocks, cpuBlocks);
    var w := Run(start, events);
    RunsAreConsistent(start, events);
    RunSetting(start, events);
    RunLimit(start, events);
    StepConserves(w, throttle);
    StepIsFair(w, throttle);
    StepKeepsLine(w, throttle);
    if config.maxSeqs.Some? { StepRespectsLimit(w, throttle); }
    if !throttle && w.running != [] && (config.budget.Some? ==> config.budget.value >= 1)
       && LogicalBlocks(blockSize, Get(w, Oldest(w))) <= gpuBlocks {
      OldestFirst(w);
      OldestRuns(w, Oldest(w));
    }
  }

  /**
    Nobody starves.  After any timely run, if the scheduler can run somebody and every request present
    fits the pool beside the watermark, everybody has finished once as many unthrottled ticks have passed
    as there are prompt and output tokens in the line.
   */
  lemma {:induction false} EveryRunDrains(config: Config, blockSize: nat, watermark: nat, gpuBlocks: nat, cpuBlocks: nat, events: seq<Event>, n: nat)
    requires blockSize > 0
    requires LawfulRun(NewWorld(config, blockSize, watermark, gpuBlocks, cpuBlocks), events)
    requires TimelyRun(NewWorld(config, blockSize, watermark, gpuBlocks, cpuBlocks), events)
    requires (config.budget.Some? ==> config.budget.value >= 1) && (config.maxSeqs.Some? ==> config.maxSeqs.value >= 1) && config.occupy > 0.0
    requires var w := Run(NewWorld(config, blockSize, watermark, gpuBlocks, cpuBlocks), events);
      && n >= Owed(w, w.running + w.waiting)
      && forall x :: x in w.running || x in w.waiting ==> 1 <= FullBlocks(blockSize, Get(w, x).prompt) + watermark <= gpuBlocks
    ensures var v := Ticks(Run(NewWorld(config, blockSize, watermark, gpuBlocks, cpuBlocks), events), n);
      v.running == [] && v.waiting == []
  {
    hide Inv, IdOk, LawfulRun, TimelyRun, Run, FullBlocks, Ticks, Owed;
    var start := NewWorld(config, blockSize, watermark, gpuBlocks, cpuBlocks);
    NewWorldOk(config, blockSize, watermark, gpuBlocks, cpuBlocks);
    var w := Run(start, events);
    RunsAreConsistent(start, events);
    RunSetting(start, events);
    RunInOrder(start, events);
    assert forall x :: x in w.running || x in w.waiting ==> Fits(w, x);
    EverybodyFinishes(w, n);
  }
}
