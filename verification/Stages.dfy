/** Groups of phases that do not wait for one another: each can be evaluated on its own. */
module Stages {
  import opened Common
  import opened TrafficTypes
  import opened RingSemantics
  import opened RingResults
  import opened PlanSemantics

  /** Phase `k` has its own identifier and waits for no phase of the same stage. */
  ghost predicate Independent(phases: seq<TrafficPhase>, k: nat) {
    && k < |phases|
    && (forall j :: 0 <= j < |phases| && j != k ==> phases[j].id != phases[k].id)
    && (forall j :: 0 <= j < |phases| ==> phases[j].id !in phases[k].predecessors)
  }

  ghost predicate Fresh(phases: seq<TrafficPhase>, id: PhaseId) {
    forall k :: 0 <= k < |phases| ==> phases[k].id != id
  }

  lemma {:induction false} StageKeeps(phases: seq<TrafficPhase>, base: Results, inputs: Buffers, blank: Cell, id: PhaseId)
    requires Fresh(phases, id)
    ensures ResultOf(Run(phases, base, inputs, blank), id) == ResultOf(base, id)
  {
    if phases != [] { StageKeeps(phases[..|phases| - 1], base, inputs, blank, id); }
  }

  lemma {:induction false} JoinedSame(a: Results, b: Results, ids: seq<PhaseId>, r: Rank, n: nat)
    requires n <= |ids| && forall i :: 0 <= i < n ==> ResultOf(a, ids[i]) == ResultOf(b, ids[i])
    ensures Joined(a, ids, r, n) == Joined(b, ids, r, n)
    decreases n
  {
    if n > 0 { JoinedSame(a, b, ids, r, n - 1); }
  }

  lemma {:induction false} SameInputs(phase: TrafficPhase, a: Results, b: Results, inputs: Buffers)
    requires forall i :: 0 <= i < |phase.predecessors| ==>
               ResultOf(a, phase.predecessors[i]) == ResultOf(b, phase.predecessors[i])
    ensures PhaseInputs(phase, a, inputs) == PhaseInputs(phase, b, inputs)
  {
    forall r | r in ParticipantSet(phase)
      ensures InputOf(phase, a, inputs, r) == InputOf(phase, b, inputs, r)
    {
      JoinedSame(a, b, phase.predecessors, r, |phase.predecessors|);
    }
  }

  /** Within a stage every phase sees exactly what was done before the stage. */
  lemma {:induction false} StageResult(phases: seq<TrafficPhase>, base: Results, inputs: Buffers, blank: Cell, k: nat)
    requires Independent(phases, k)
    ensures ResultOf(Run(phases, base, inputs, blank), phases[k].id) ==
            ExecutePhase(phases[k], PhaseInputs(phases[k], base, inputs), blank)
  {
    hide ExecutePhase, PhaseInputs;
    var phase, earlier := phases[k], Run(phases[..k], base, inputs, blank);
    forall i | 0 <= i < |phase.predecessors|
      ensures ResultOf(earlier, phase.predecessors[i]) == ResultOf(base, phase.predecessors[i])
    {
      StageKeeps(phases[..k], base, inputs, blank, phase.predecessors[i]);
    }
    SameInputs(phase, earlier, base, inputs);
    assert phases == phases[..k + 1] + phases[k + 1..];
    RunConcat(phases[..k + 1], phases[k + 1..], base, inputs, blank);
    assert phases[..k + 1][..k] == phases[..k];
    StageKeeps(phases[k + 1..], Run(phases[..k + 1], base, inputs, blank), inputs, blank, phase.id);
  }

  lemma {:induction false} InputAt(phase: TrafficPhase, base: Results, inputs: Buffers, r: Rank)
    requires r in phase.participants
    ensures Of(PhaseInputs(phase, base, inputs), r) == InputOf(phase, base, inputs, r)
  {
  }

  // ----- ring phases as part of a plan -----

  lemma {:induction false} ScatterPhase(id: PhaseId, ranks: seq<Rank>, bytes: nat, nodeOf: map<Rank, Node>, predecessors: seq<PhaseId>,
                     chunk: nat, fed: Buffers, blank: Cell, i: nat)
    requires i < |ranks| && Distinct(ranks) && Sized(fed, ranks, bytes) && bytes == |ranks| * chunk
    ensures Of(ExecutePhase(RingPhase(id, ReduceScatter, ranks, bytes, nodeOf, predecessors), fed, blank), ranks[i]) ==
            ReducedShard(fed, ranks, i, chunk)
  {
    RingPhaseFeeds(id, ReduceScatter, ranks, bytes, nodeOf, predecessors, chunk, fed);
    ReduceScatterResult(RingPhase(id, ReduceScatter, ranks, bytes, nodeOf, predecessors), nodeOf, chunk, fed, blank, i);
  }

  lemma {:induction false} ReducePhase(id: PhaseId, ranks: seq<Rank>, bytes: nat, nodeOf: map<Rank, Node>, predecessors: seq<PhaseId>,
                    chunk: nat, fed: Buffers, blank: Cell, i: nat)
    requires i < |ranks| && Distinct(ranks) && Sized(fed, ranks, bytes) && bytes == |ranks| * chunk
    ensures Of(ExecutePhase(RingPhase(id, AllReduce, ranks, bytes, nodeOf, predecessors), fed, blank), ranks[i]) ==
            ReducedShard(fed, ranks, 0, bytes)
  {
    RingPhaseFeeds(id, AllReduce, ranks, bytes, nodeOf, predecessors, chunk, fed);
    AllReduceResult(RingPhase(id, AllReduce, ranks, bytes, nodeOf, predecessors), nodeOf, chunk, fed, blank, i);
  }

  lemma {:induction false} GatherPhase(id: PhaseId, ranks: seq<Rank>, bytes: nat, nodeOf: map<Rank, Node>, predecessors: seq<PhaseId>,
                    fed: Buffers, blank: Cell, i: nat, k: nat)
    requires i < |ranks| && k < |ranks| && Distinct(ranks) && Sized(fed, ranks, bytes)
    ensures
      var output := Of(ExecutePhase(RingPhase(id, AllGather, ranks, bytes, nodeOf, predecessors), fed, blank), ranks[i]);
      && |output| == |ranks| * bytes
      && Window(output, k, bytes) == Of(fed, ranks[k])
  {
    var phase := RingPhase(id, AllGather, ranks, bytes, nodeOf, predecessors);
    RingPhaseFeeds(id, AllGather, ranks, bytes, nodeOf, predecessors, bytes, fed);
    GatherLength(phase, nodeOf, bytes, fed, blank, i);
    AllGatherResult(phase, nodeOf, bytes, fed, blank, i, k);
  }

  /** Byte `q` of one shard equals byte `q` of another. */
  ghost predicate SameByte(a: Buffers, ra: seq<Rank>, i: nat, b: Buffers, rb: seq<Rank>, k: nat, width: nat, q: nat) {
    Total(a, ra, Offset(i, width, q)) == Total(b, rb, Offset(k, width, q))
  }

  lemma {:induction false} ShardsAgree(a: Buffers, ra: seq<Rank>, i: nat, b: Buffers, rb: seq<Rank>, k: nat, width: nat)
    requires forall q :: 0 <= q < width ==> SameByte(a, ra, i, b, rb, k, width, q)
    ensures ReducedShard(a, ra, i, width) == ReducedShard(b, rb, k, width)
  {
    var left, right := ReducedShard(a, ra, i, width), ReducedShard(b, rb, k, width);
    forall q | 0 <= q < width ensures left[q] == right[q] {
      assert SameByte(a, ra, i, b, rb, k, width, q);
    }
  }

  lemma {:induction false} SameShard(a: Buffers, b: Buffers, ranks: seq<Rank>, i: nat, width: nat)
    requires forall r :: r in ranks ==> Of(a, r) == Of(b, r)
    ensures ReducedShard(a, ranks, i, width) == ReducedShard(b, ranks, i, width)
  {
    forall q | 0 <= q < width ensures SameByte(a, ranks, i, b, ranks, i, width, q) {
      SameTotal(a, b, ranks, Offset(i, width, q));
    }
    ShardsAgree(a, ranks, i, b, ranks, i, width);
  }

  lemma {:induction false} OffsetZero(width: nat, q: nat)
    ensures Offset(0, width, q) == q
  {
    assert 0 * width == 0;
  }

  // ----- which phases nobody waits for -----

  /** If only the phase `id` among the sinks involves `r`, its result is the outcome. */
  lemma {:induction false} FinalIs(phases: seq<TrafficPhase>, done: Results, r: Rank, k: nat)
    requires k < |phases| && !Referenced(phases, phases[k].id)
    requires forall i :: 0 <= i < |phases| && i != k ==> Silent(phases, done, r, i)
    ensures Final(phases, done, r) == Of(ResultOf(done, phases[k].id), r)
  {
    SinkJoin(phases, done, r, k, |phases|);
  }

  /** Phase `i` contributes nothing to the outcome of `r`. */
  ghost predicate Silent(phases: seq<TrafficPhase>, done: Results, r: Rank, i: nat)
    requires i < |phases|
  {
    Referenced(phases, phases[i].id) || Of(ResultOf(done, phases[i].id), r) == []
  }

  lemma {:induction false} SinkJoin(phases: seq<TrafficPhase>, done: Results, r: Rank, k: nat, n: nat)
    requires k < |phases| && n <= |phases| && !Referenced(phases, phases[k].id)
    requires forall i :: 0 <= i < |phases| && i != k ==> Silent(phases, done, r, i)
    ensures Joined(done, Sinks(phases, n), r, |Sinks(phases, n)|) ==
            if k < n then Of(ResultOf(done, phases[k].id), r) else []
    decreases n
  {
    hide Referenced, Joined;
    if n > 0 {
      SinkJoin(phases, done, r, k, n - 1);
      assert n - 1 != k ==> Silent(phases, done, r, n - 1);
      JoinedAppend(done, Sinks(phases, n - 1), phases[n - 1].id, r);
    } else {
      JoinedNone(done, r);
    }
  }

  lemma {:induction false} JoinedNone(done: Results, r: Rank)
    ensures Joined(done, [], r, 0) == []
  {
  }

  lemma {:induction false} JoinedAppend(done: Results, ids: seq<PhaseId>, id: PhaseId, r: Rank)
    ensures Joined(done, ids + [id], r, |ids| + 1) == Then(Joined(done, ids, r, |ids|), Of(ResultOf(done, id), r))
  {
    JoinedPrefix(done, ids, [id], r, |ids|);
  }
}
