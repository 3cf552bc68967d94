/**
  What a whole plan computes.  A phase reads, for each of its participants, the results of the
  phases it waits for, in the order in which it lists them; a phase that waits for nothing reads the
  collective's input.  The plan's outcome is what the phases nobody waits for leave behind.
 */
module PlanSemantics {
  import opened Common
  import opened TrafficTypes
  import opened RingSemantics

  type Results = map<PhaseId, Buffers>

  function ResultOf(done: Results, id: PhaseId): Buffers {
    if id in done then done[id] else map[]
  }

  /** `a` followed by `b`. */
  function Then(a: Buffer, b: Buffer): Buffer {
    if a == [] then b else if b == [] then a else a + b
  }

  lemma {:induction false} ThenIsConcat(a: Buffer, b: Buffer)
    ensures Then(a, b) == a + b
  {
  }

  lemma {:induction false} ThenAssociates(a: Buffer, b: Buffer, c: Buffer)
    ensures Then(Then(a, b), c) == Then(a, Then(b, c))
  {
    ThenIsConcat(a, b);
    ThenIsConcat(b, c);
    ThenIsConcat(a + b, c);
    ThenIsConcat(a, b + c);
    assert (a + b) + c == a + (b + c);
  }

  /** What the first `n` phases of `ids` left on rank `r`, one after the other. */
  function Joined(done: Results, ids: seq<PhaseId>, r: Rank, n: nat): Buffer
    requires n <= |ids|
  {
    if n == 0 then [] else Then(Joined(done, ids, r, n - 1), Of(ResultOf(done, ids[n - 1]), r))
  }

  /** A local reduce-scatter towards one destination node reads only that node's share. */
  function InputOf(phase: TrafficPhase, done: Results, inputs: Buffers, r: Rank): Buffer {
    var available :=
      if phase.predecessors == [] then Of(inputs, r)
      else Joined(done, phase.predecessors, r, |phase.predecessors|);
    if phase.id.LocalRsTo? then Window(available, phase.id.destination, phase.inputBytes) else available
  }

  function PhaseInputs(phase: TrafficPhase, done: Results, inputs: Buffers): (b: Buffers)
    ensures b.Keys == ParticipantSet(phase)
  {
    map r | r in ParticipantSet(phase) :: InputOf(phase, done, inputs, r)
  }

  /** The blocks of `data` in the order of the first `n` entries of `permutation`. */
  function Permuted(data: Buffer, permutation: seq<nat>, width: nat, n: nat): Buffer
    requires n <= |permutation|
  {
    if n == 0 then [] else Permuted(data, permutation, width, n - 1) + Window(data, permutation[n - 1], width)
  }

  function BlockWidth(phase: TrafficPhase): nat {
    if phase.permutation == [] then 0 else Div(phase.inputBytes, |phase.permutation|)
  }

  function ExecutePhase(phase: TrafficPhase, inputs: Buffers, blank: Cell): (outputs: Buffers)
    ensures outputs.Keys == ParticipantSet(phase)
  {
    if phase.operation.DataReorder? then
      map r | r in ParticipantSet(phase) ::
        Permuted(Of(inputs, r), phase.permutation, BlockWidth(phase), |phase.permutation|)
    else ExecuteRing(phase, inputs, blank)
  }

  /** Runs `phases` after `done`. */
  function Run(phases: seq<TrafficPhase>, done: Results, inputs: Buffers, blank: Cell): Results {
    if phases == [] then done
    else
      var earlier := Run(phases[..|phases| - 1], done, inputs, blank);
      var phase := phases[|phases| - 1];
      earlier[phase.id := ExecutePhase(phase, PhaseInputs(phase, earlier, inputs), blank)]
  }

  lemma {:induction false} RunConcat(a: seq<TrafficPhase>, b: seq<TrafficPhase>, done: Results, inputs: Buffers, blank: Cell)
    ensures Run(a + b, done, inputs, blank) == Run(b, Run(a, done, inputs, blank), inputs, blank)
  {
    if b == [] {
      assert a + b == a;
    } else {
      assert (a + b)[..|a + b| - 1] == a + b[..|b| - 1];
      RunConcat(a, b[..|b| - 1], done, inputs, blank);
    }
  }

  predicate Referenced(phases: seq<TrafficPhase>, id: PhaseId) {
    exists k :: 0 <= k < |phases| && id in phases[k].predecessors
  }

  /** Those of the first `n` phases that no phase waits for. */
  function Sinks(phases: seq<TrafficPhase>, n: nat): seq<PhaseId>
    requires n <= |phases|
  {
    if n == 0 then []
    else if Referenced(phases, phases[n - 1].id) then Sinks(phases, n - 1)
    else Sinks(phases, n - 1) + [phases[n - 1].id]
  }

  /** What the phases nobody waits for left on rank `r`. */
  function Final(phases: seq<TrafficPhase>, done: Results, r: Rank): Buffer {
    var sinks := Sinks(phases, |phases|);
    Joined(done, sinks, r, |sinks|)
  }

  /** What the collective leaves on rank `r`. */
  function Outcome(phases: seq<TrafficPhase>, inputs: Buffers, blank: Cell, r: Rank): Buffer {
    Final(phases, Run(phases, map[], inputs, blank), r)
  }

  // ----- reading results -----

  /** If only one of the phases involves `r`, the join is that phase's result. */
  lemma {:induction false} JoinedSingle(done: Results, ids: seq<PhaseId>, r: Rank, n: nat, k: nat)
    requires k < |ids| && n <= |ids|
    requires forall i :: 0 <= i < n && i != k ==> Of(ResultOf(done, ids[i]), r) == []
    ensures Joined(done, ids, r, n) == if k < n then Of(ResultOf(done, ids[k]), r) else []
    decreases n
  {
    if n > 0 { JoinedSingle(done, ids, r, n - 1, k); }
  }

  lemma {:induction false} JoinedConcat(done: Results, a: seq<PhaseId>, b: seq<PhaseId>, r: Rank, n: nat)
    requires n <= |b|
    ensures Joined(done, a + b, r, |a| + n) == Then(Joined(done, a, r, |a|), Joined(done, b, r, n))
    decreases n
  {
    if n == 0 {
      JoinedPrefix(done, a, b, r, |a|);
    } else {
      JoinedConcat(done, a, b, r, n - 1);
      assert (a + b)[|a| + n - 1] == b[n - 1];
      ThenAssociates(Joined(done, a, r, |a|), Joined(done, b, r, n - 1), Of(ResultOf(done, b[n - 1]), r));
    }
  }

  lemma {:induction false} JoinedPrefix(done: Results, a: seq<PhaseId>, b: seq<PhaseId>, r: Rank, n: nat)
    requires n <= |a|
    ensures Joined(done, a + b, r, n) == Joined(done, a, r, n)
    decreases n
  {
    if n > 0 { JoinedPrefix(done, a, b, r, n - 1); }
  }
}
