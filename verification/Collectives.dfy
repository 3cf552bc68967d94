/**
  `collective_plan`: the checks it makes, the plan it returns, and what that plan computes for every
  placement of the participants over the nodes.
 */
module Collectives {
  import opened Common
  import opened TrafficTypes
  import opened RingSemantics
  import opened RingResults
  import opened CollectivePlan
  import opened PlanSemantics
  import opened Stages
  import opened Grouping
  import opened Grid
  import AR = HierarchicalAllReduce
  import AG = HierarchicalAllGather
  import RS = HierarchicalReduceScatter

  // ----- what collective_plan accepts -----

  predicate IsCollective(operation: Operation) {
    operation.AllReduce? || operation.AllGather? || operation.ReduceScatter?
  }

  predicate Participants(ranks: seq<Rank>, nodeOf: map<Rank, Node>) {
    ranks != [] && Distinct(ranks) && forall r :: r in ranks ==> r in nodeOf
  }

  /** Equally many participants on every node. */
  predicate Balanced(groups: seq<seq<Rank>>) {
    groups != [] && Rectangular(groups, |groups[0]|)
  }

  predicate Accepts(operation: Operation, ranks: seq<Rank>, bytes: int, nodeOf: map<Rank, Node>, width: nat)
    requires width > 0
  {
    && Participants(ranks, nodeOf)
    && RingAligned(operation, |ranks|, bytes, width)
    && Balanced(Groups(ranks, nodeOf))
  }

  function Plan(operation: Operation, ranks: seq<Rank>, bytes: nat, nodeOf: map<Rank, Node>): TrafficPlan
    requires ranks != [] && Balanced(Groups(ranks, nodeOf))
  {
    GroupsPeopled(ranks, nodeOf);
    var groups := Groups(ranks, nodeOf);
    TrafficPlan(operation, ranks, bytes, PlanPhases(operation, ranks, groups, |groups[0]|, bytes, nodeOf))
  }

  // ----- the one divisibility check covers every sub-phase -----

  lemma {:induction false} Multiple(a: int, n: int) returns (m: int)
    requires n > 0 && a % n == 0
    ensures a == m * n
  {
    m := a / n;
  }

  lemma {:induction false} Divides(m: nat, n: nat)
    requires n > 0
    ensures 0 <= m * n && (m * n) % n == 0
  {
    MulNonNegative(m, n);
    ShardOf(m * n, m, n);
  }

  /** A reduction aligned for `n * local` participants stays aligned when split by either factor. */
  lemma {:induction false} AlignedShare(bytes: nat, n: nat, local: nat, width: nat)
    requires width > 0 && n >= 1 && local >= 1
    requires 0 <= n * local && bytes % (n * local * width) == 0 && n * local * width > 0
    ensures bytes % (local * width) == 0
    ensures Div(bytes, local) % (n * width) == 0 && Div(bytes, local) % width == 0
    ensures bytes == local * Div(bytes, local)
  {
    var m := Multiple(bytes, n * local * width);
    assert bytes == (m * n) * (local * width) by { Rearrange(m, n, local, width); }
    Divides(m * n, local * width);
    assert bytes == (m * (n * width)) * local by { Rearrange(m, n, local, width); }
    assert m >= 0;
    MulNonNegative(n, width);
    MulNonNegative(m, n * width);
    DivExact(m * (n * width), local);
    Divides(m, n * width);
    assert m * (n * width) == (m * n) * width;
    Divides(m * n, width);
  }

  lemma {:induction false} Rearrange(m: int, n: int, local: int, width: int)
    ensures m * (n * local * width) == (m * n) * (local * width)
    ensures m * (n * local * width) == (m * (n * width)) * local
  {
  }

  lemma {:induction false} GridOfGroups(ranks: seq<Rank>, nodeOf: map<Rank, Node>)
    requires Participants(ranks, nodeOf) && Balanced(Groups(ranks, nodeOf))
    ensures IsGrid(ranks, Groups(ranks, nodeOf), |Groups(ranks, nodeOf)[0]|) && Peopled(Groups(ranks, nodeOf))
  {
    GroupsPeopled(ranks, nodeOf);
    GroupsPartition(ranks, nodeOf);
  }

  // ----- a single ring -----

  lemma {:induction false} SinglePhase(phase: TrafficPhase, inputs: Buffers, blank: Cell, r: Rank)
    requires phase.predecessors == []
    ensures Outcome([phase], inputs, blank, r) == Of(ExecutePhase(phase, PhaseInputs(phase, map[], inputs), blank), r)
  {
    var done := Run([phase], map[], inputs, blank);
    assert [phase][..0] == [];
    assert Run([], map[], inputs, blank) == map[];
    assert !Referenced([phase], phase.id);
    FinalIs([phase], done, r, 0);
  }

  lemma {:induction false} RingInputs(operation: Operation, ranks: seq<Rank>, bytes: nat, nodeOf: map<Rank, Node>, inputs: Buffers)
    requires ranks != [] && Sized(inputs, ranks, bytes)
    ensures
      var fed := PhaseInputs(RingPhase(Ring, operation, ranks, bytes, nodeOf, []), map[], inputs);
      Sized(fed, ranks, bytes) && forall r :: r in ranks ==> Of(fed, r) == Of(inputs, r)
  {
  }

  /** With one participant every size is aligned. */
  lemma {:induction false} FlatShare(operation: Operation, n: nat, bytes: nat, width: nat) returns (chunk: nat)
    requires width > 0 && RingAligned(operation, n, bytes, width) && !operation.AllGather?
    ensures bytes == n * chunk && chunk == Div(bytes, n)
  {
    if n == 1 {
      chunk := bytes;
      DivExact(bytes, 1);
    } else {
      var m := Multiple(bytes, n * width);
      assert bytes == (m * width) * n;
      assert m >= 0;
      MulNonNegative(m, width);
      chunk := m * width;
      DivExact(chunk, n);
    }
  }

  lemma {:induction false} FlatAllReduce(ranks: seq<Rank>, bytes: nat, nodeOf: map<Rank, Node>, width: nat, inputs: Buffers, blank: Cell, r: Rank)
    requires width > 0 && Participants(ranks, nodeOf) && RingAligned(AllReduce, |ranks|, bytes, width)
    requires Sized(inputs, ranks, bytes) && r in ranks
    ensures Outcome([RingPhase(Ring, AllReduce, ranks, bytes, nodeOf, [])], inputs, blank, r) ==
            ReducedShard(inputs, ranks, 0, bytes)
  {
    var phase := RingPhase(Ring, AllReduce, ranks, bytes, nodeOf, []);
    var fed := PhaseInputs(phase, map[], inputs);
    SinglePhase(phase, inputs, blank, r);
    RingInputs(AllReduce, ranks, bytes, nodeOf, inputs);
    var chunk := FlatShare(AllReduce, |ranks|, bytes, width);
    ReducePhase(Ring, ranks, bytes, nodeOf, [], chunk, fed, blank, IndexOf(ranks, r));
    SameShard(fed, inputs, ranks, 0, bytes);
  }

  lemma {:induction false} FlatReduceScatter(ranks: seq<Rank>, bytes: nat, nodeOf: map<Rank, Node>, width: nat, inputs: Buffers, blank: Cell, i: nat)
    requires width > 0 && Participants(ranks, nodeOf) && RingAligned(ReduceScatter, |ranks|, bytes, width)
    requires Sized(inputs, ranks, bytes) && i < |ranks|
    ensures Outcome([RingPhase(Ring, ReduceScatter, ranks, bytes, nodeOf, [])], inputs, blank, ranks[i]) ==
            ReducedShard(inputs, ranks, i, Div(bytes, |ranks|))
  {
    var phase := RingPhase(Ring, ReduceScatter, ranks, bytes, nodeOf, []);
    var fed := PhaseInputs(phase, map[], inputs);
    SinglePhase(phase, inputs, blank, ranks[i]);
    RingInputs(ReduceScatter, ranks, bytes, nodeOf, inputs);
    var chunk := FlatShare(ReduceScatter, |ranks|, bytes, width);
    ScatterPhase(Ring, ranks, bytes, nodeOf, [], chunk, fed, blank, i);
    SameShard(fed, inputs, ranks, i, chunk);
  }

  /** A buffer made of the inputs as blocks, in participant order, is the gathered input. */
  lemma {:induction false} BlocksAreGathered(output: Buffer, inputs: Buffers, ranks: seq<Rank>, bytes: nat)
    requires |output| == |ranks| * bytes
    requires forall k :: 0 <= k < |ranks| ==> AG.BlockIs(output, Identity(|ranks|), bytes, inputs, ranks, k)
    ensures output == Gathered(inputs, ranks)
  {
    AG.PermutedIsGathered(output, Identity(|ranks|), bytes, inputs, ranks, |ranks|);
    AG.WholeIdentity(output, bytes, |ranks|);
    assert ranks[..|ranks|] == ranks;
  }

  lemma {:induction false} GatheredBlock(phase: TrafficPhase, fed: Buffers, ranks: seq<Rank>, bytes: nat, nodeOf: map<Rank, Node>,
                      inputs: Buffers, blank: Cell, r: Rank, k: nat)
    requires r in ranks && Distinct(ranks) && phase == RingPhase(Ring, AllGather, ranks, bytes, nodeOf, [])
    requires Sized(fed, ranks, bytes) && k < |ranks| && Of(fed, ranks[k]) == Of(inputs, ranks[k])
    ensures |Of(ExecutePhase(phase, fed, blank), r)| == |ranks| * bytes
    ensures AG.BlockIs(Of(ExecutePhase(phase, fed, blank), r), Identity(|ranks|), bytes, inputs, ranks, k)
  {
    GatherPhase(Ring, ranks, bytes, nodeOf, [], fed, blank, IndexOf(ranks, r), k);
    AG.IdentityAt(|ranks|, k);
  }

  lemma {:induction false} FlatAllGather(ranks: seq<Rank>, bytes: nat, nodeOf: map<Rank, Node>, inputs: Buffers, blank: Cell, r: Rank)
    requires Participants(ranks, nodeOf) && Sized(inputs, ranks, bytes) && r in ranks
    ensures Outcome([RingPhase(Ring, AllGather, ranks, bytes, nodeOf, [])], inputs, blank, r) == Gathered(inputs, ranks)
  {
    var phase := RingPhase(Ring, AllGather, ranks, bytes, nodeOf, []);
    var fed := PhaseInputs(phase, map[], inputs);
    SinglePhase(phase, inputs, blank, r);
    RingInputs(AllGather, ranks, bytes, nodeOf, inputs);
    var output := Of(ExecutePhase(phase, fed, blank), r);
    forall k | 0 <= k < |ranks| ensures AG.BlockIs(output, Identity(|ranks|), bytes, inputs, ranks, k) {
      GatheredBlock(phase, fed, ranks, bytes, nodeOf, inputs, blank, r, k);
    }
    GatheredBlock(phase, fed, ranks, bytes, nodeOf, inputs, blank, r, 0);
    BlocksAreGathered(output, inputs, ranks, bytes);
  }

  // ----- the collectives -----

  /** All-reduce: every participant ends with the sum of all inputs, each counted once. */
  lemma {:induction false} AllReduceCorrect(ranks: seq<Rank>, bytes: nat, nodeOf: map<Rank, Node>, width: nat,
                         inputs: Buffers, blank: Cell, r: Rank)
    requires width > 0 && Accepts(AllReduce, ranks, bytes, nodeOf, width)
    requires Sized(inputs, ranks, bytes) && r in ranks
    ensures Outcome(Plan(AllReduce, ranks, bytes, nodeOf).phases, inputs, blank, r) == ReducedShard(inputs, ranks, 0, bytes)
  {
    var groups := Groups(ranks, nodeOf);
    var local := |groups[0]|;
    GridOfGroups(ranks, nodeOf);
    if Flat(groups, local) {
      FlatAllReduce(ranks, bytes, nodeOf, width, inputs, blank, r);
    } else {
      GridAligned(AllReduce, ranks, groups, local, bytes, width);
      var job := AR.Job(ranks, groups, local, Div(bytes, local), bytes, nodeOf, inputs, blank);
      assert AR.Valid(job);
      assert AR.Phases(job) == AllReducePhases(groups, local, bytes, nodeOf);
      AR.AllReduceHierarchy(job, r);
    }
  }

  /** All-gather: every participant ends with all inputs, in participant order. */
  lemma {:induction false} AllGatherCorrect(ranks: seq<Rank>, bytes: nat, nodeOf: map<Rank, Node>, width: nat,
                         inputs: Buffers, blank: Cell, r: Rank)
    requires width > 0 && Accepts(AllGather, ranks, bytes, nodeOf, width)
    requires Sized(inputs, ranks, bytes) && r in ranks
    ensures Outcome(Plan(AllGather, ranks, bytes, nodeOf).phases, inputs, blank, r) == Gathered(inputs, ranks)
  {
    var groups := Groups(ranks, nodeOf);
    var local := |groups[0]|;
    GridOfGroups(ranks, nodeOf);
    if Flat(groups, local) {
      FlatAllGather(ranks, bytes, nodeOf, inputs, blank, r);
    } else {
      var job := AG.Job(ranks, groups, local, bytes, nodeOf, inputs, blank);
      AG.PhasesMatch(job);
      AG.AllGatherHierarchy(job, r);
    }
  }

  /** Reduce-scatter: the i-th participant ends with the sum of all i-th shards. */
  lemma {:induction false} ReduceScatterCorrect(ranks: seq<Rank>, bytes: nat, nodeOf: map<Rank, Node>, width: nat,
                             inputs: Buffers, blank: Cell, i: nat)
    requires width > 0 && Accepts(ReduceScatter, ranks, bytes, nodeOf, width)
    requires Sized(inputs, ranks, bytes) && i < |ranks|
    ensures Outcome(Plan(ReduceScatter, ranks, bytes, nodeOf).phases, inputs, blank, ranks[i]) ==
            ReducedShard(inputs, ranks, i, Div(bytes, |ranks|))
  {
    var groups := Groups(ranks, nodeOf);
    var local := |groups[0]|;
    GridOfGroups(ranks, nodeOf);
    if Flat(groups, local) {
      FlatReduceScatter(ranks, bytes, nodeOf, width, inputs, blank, i);
    } else {
      var unit := FlatShare(ReduceScatter, |ranks|, bytes, width);
      var job := RS.ScatterJob(ranks, groups, local, unit, bytes, nodeOf, inputs, blank);
      ScatterSizes(job);
      assert RS.ScatterPhases(job) == ReduceScatterPhases(ranks, groups, local, bytes, nodeOf);
      RS.ReduceScatterHierarchy(job, i);
    }
  }

  /** In a grid the whole is aligned for nodes times slots. */
  lemma {:induction false} GridAligned(operation: Operation, ranks: seq<Rank>, groups: seq<seq<Rank>>, local: nat, bytes: nat, width: nat)
    requires width > 0 && RingAligned(operation, |ranks|, bytes, width) && !operation.AllGather?
    requires IsGrid(ranks, groups, local) && |groups| > 1
    ensures bytes == local * Div(bytes, local)
    ensures exists unit: nat :: Div(bytes, local) == |groups| * unit
  {
    var n := |groups|;
    GridCount(ranks, groups, local);
    MulMono(2, n, local);
    AlignedShare(bytes, n, local, width);
    var m := Multiple(Div(bytes, local), n * width);
    assert m * (n * width) == n * (m * width);
    assert m >= 0;
    MulNonNegative(m, width);
    var unit: nat := m * width;
    assert Div(bytes, local) == n * unit;
  }

  lemma {:induction false} ScatterSizes(j: RS.ScatterJob)
    requires RS.ValidScatter(j)
    ensures RS.NodeShare(j) == Div(j.bytes, |j.groups|)
    ensures RS.SlotShare(j) == Div(j.bytes, j.local)
  {
    var n := |j.groups|;
    GridCount(j.ranks, j.groups, j.local);
    assert (n * j.local) * j.unit == (j.local * j.unit) * n;
    assert (n * j.local) * j.unit == (n * j.unit) * j.local;
    DivExact(RS.NodeShare(j), n);
    DivExact(RS.SlotShare(j), j.local);
  }
}
