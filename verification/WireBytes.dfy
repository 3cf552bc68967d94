/** Wire volume: a hierarchical plan moves exactly as many bytes as one flat ring over all participants. */
module WireBytes {
  import opened Common
  import opened TrafficTypes
  import opened CollectivePlan
  import opened Collectives
  import opened CollectiveBuilder
  import opened Grid

  function RoundBytes(messages: Round): real {
    if messages == [] then 0.0
    else RoundBytes(messages[..|messages| - 1]) + messages[|messages| - 1].wireBytes
  }

  function RoundsBytes(rounds: seq<Round>): real {
    if rounds == [] then 0.0
    else RoundsBytes(rounds[..|rounds| - 1]) + RoundBytes(rounds[|rounds| - 1])
  }

  function PhaseBytes(phase: TrafficPhase): real {
    RoundsBytes(phase.rounds)
  }

  /** The wire bytes of the first `n` phases. */
  function BytesUpTo(phases: seq<TrafficPhase>, n: nat): real
    requires n <= |phases|
  {
    if n == 0 then 0.0 else BytesUpTo(phases, n - 1) + PhaseBytes(phases[n - 1])
  }

  function PlanBytes(phases: seq<TrafficPhase>): real {
    BytesUpTo(phases, |phases|)
  }

  /** What a flat ring over `n` participants sends: `ring_volume` times the participants. */
  function RingBytes(operation: Operation, n: nat, bytes: nat): int
    requires n >= 1
  {
    if operation.AllReduce? then 2 * (n - 1) * bytes
    else if operation.AllGather? then n * ((n - 1) * bytes)
    else (n - 1) * bytes
  }

  lemma {:induction false} AppendRound(rounds: seq<Round>, round: Round)
    ensures RoundsBytes(rounds + [round]) == RoundsBytes(rounds) + RoundBytes(round)
  {
    assert (rounds + [round])[..|rounds|] == rounds;
  }

  lemma {:induction false} AppendMessage(messages: Round, m: Transmission)
    ensures RoundBytes(messages + [m]) == RoundBytes(messages) + m.wireBytes
  {
    assert (messages + [m])[..|messages|] == messages;
  }

  lemma {:induction false} AppendPhase(phases: seq<TrafficPhase>, phase: TrafficPhase)
    ensures PlanBytes(phases + [phase]) == PlanBytes(phases) + PhaseBytes(phase)
  {
    BytesOfPrefix(phases, [phase], |phases|);
  }

  lemma {:induction false} BytesOfPrefix(a: seq<TrafficPhase>, b: seq<TrafficPhase>, n: nat)
    requires n <= |a|
    ensures BytesUpTo(a + b, n) == BytesUpTo(a, n)
    decreases n
  {
    if n > 0 { BytesOfPrefix(a, b, n - 1); }
  }

  lemma {:induction false} OneMore(n: nat, each: int)
    requires n > 0
    ensures (n * each) as real == ((n - 1) * each) as real + each as real
  {
    assert n * each == (n - 1) * each + each;
  }

  lemma {:induction false} RingRoundBytes(ranks: seq<Rank>, nodeOf: map<Rank, Node>, chunk: nat, shift: int, n: nat)
    requires n <= |ranks|
    ensures RoundBytes(RingRound(ranks, nodeOf, chunk, shift, n)) == (n * chunk) as real
    decreases n
  {
    if n > 0 {
      RingRoundBytes(ranks, nodeOf, chunk, shift, n - 1);
      AppendMessage(RingRound(ranks, nodeOf, chunk, shift, n - 1), RingMessage(ranks, nodeOf, chunk, shift, n - 1));
      OneMore(n, chunk);
    }
  }

  lemma {:induction false} RingRoundsBytes(operation: Operation, ranks: seq<Rank>, nodeOf: map<Rank, Node>, chunk: nat, n: nat, each: int)
    requires each == |ranks| * chunk
    ensures RoundsBytes(RingRoundList(operation, ranks, nodeOf, chunk, n)) == (n * each) as real
    decreases n
  {
    if n > 0 {
      var shift := RingShift(operation, |ranks|, n - 1);
      RingRoundsBytes(operation, ranks, nodeOf, chunk, n - 1, each);
      RingRoundBytes(ranks, nodeOf, chunk, shift, |ranks|);
      AppendRound(RingRoundList(operation, ranks, nodeOf, chunk, n - 1), RingRound(ranks, nodeOf, chunk, shift, |ranks|));
      OneMore(n, each);
    }
  }

  lemma {:induction false} Swap(a: int, b: int, c: int)
    ensures a * (b * c) == b * (a * c)
  {
  }

  lemma {:induction false} RingVolume(operation: Operation, n: nat, bytes: nat, chunk: nat)
    requires n >= 1 && IsCollective(operation)
    requires if operation.AllGather? then chunk == bytes else bytes == n * chunk
    ensures RingRounds(operation, n) * (n * chunk) == RingBytes(operation, n, bytes)
  {
    if operation.AllGather? { Swap(n - 1, n, bytes); }
  }

  /** An aligned ring phase sends exactly the ring volume. */
  lemma {:induction false} RingPhaseBytes(id: PhaseId, operation: Operation, ranks: seq<Rank>, bytes: nat, nodeOf: map<Rank, Node>,
                       predecessors: seq<PhaseId>, width: nat)
    requires width > 0 && RingAligned(operation, |ranks|, bytes, width)
    ensures PhaseBytes(RingPhase(id, operation, ranks, bytes, nodeOf, predecessors)) ==
            RingBytes(operation, |ranks|, bytes) as real
  {
    var n := |ranks|;
    var chunk := ShardBytes(operation, n, bytes);
    if !operation.AllGather? { var share := FlatShare(operation, n, bytes, width); }
    RingVolume(operation, n, bytes, chunk);
    if n > 1 && bytes > 0 {
      RingRoundsBytes(operation, ranks, nodeOf, chunk, RingRounds(operation, n), n * chunk);
    }
  }

  // ----- sums over the phases of one stage -----

  lemma {:induction false} BytesOfSuffix(a: seq<TrafficPhase>, b: seq<TrafficPhase>, n: nat)
    requires n <= |b|
    ensures BytesUpTo(a + b, |a| + n) == PlanBytes(a) + BytesUpTo(b, n)
    decreases n
  {
    if n == 0 {
      BytesOfPrefix(a, b, |a|);
    } else {
      BytesOfSuffix(a, b, n - 1);
      assert (a + b)[|a| + n - 1] == b[n - 1];
    }
  }

  lemma {:induction false} BytesOfConcat(a: seq<TrafficPhase>, b: seq<TrafficPhase>)
    ensures PlanBytes(a + b) == PlanBytes(a) + PlanBytes(b)
  {
    BytesOfSuffix(a, b, |b|);
  }

  /** `n` times `x`. */
  function Times(n: nat, x: real): real {
    if n == 0 then 0.0 else Times(n - 1, x) + x
  }

  lemma {:induction false} WholeTimes(n: nat, each: int)
    ensures Times(n, each as real) == (n * each) as real
    decreases n
  {
    if n > 0 {
      WholeTimes(n - 1, each);
      OneMore(n, each);
    }
  }

  /** One more ring phase of `each` bytes. */
  lemma {:induction false} AddRing(all: seq<TrafficPhase>, earlier: seq<TrafficPhase>, id: PhaseId, operation: Operation, ranks: seq<Rank>,
                bytes: nat, nodeOf: map<Rank, Node>, predecessors: seq<PhaseId>, width: nat, n: nat, each: int)
    requires width > 0 && RingAligned(operation, |ranks|, bytes, width) && n > 0
    requires each == RingBytes(operation, |ranks|, bytes) && PlanBytes(earlier) == Times(n - 1, each as real)
    requires all == earlier + [RingPhase(id, operation, ranks, bytes, nodeOf, predecessors)]
    ensures PlanBytes(all) == Times(n, each as real)
  {
    RingPhaseBytes(id, operation, ranks, bytes, nodeOf, predecessors, width);
    AppendPhase(earlier, all[|earlier|]);
  }

  lemma {:induction false} LocalRsBytes(groups: seq<seq<Rank>>, local: nat, bytes: nat, nodeOf: map<Rank, Node>, width: nat, n: nat, each: int)
    requires n <= |groups| && Peopled(groups) && Rectangular(groups, local)
    requires width > 0 && RingAligned(ReduceScatter, local, bytes, width)
    requires each == RingBytes(ReduceScatter, local, bytes)
    ensures PlanBytes(LocalRsPhases(groups, bytes, nodeOf, n)) == Times(n, each as real)
    decreases n
  {
    hide RingPhase;
    if n > 0 {
      LocalRsBytes(groups, local, bytes, nodeOf, width, n - 1, each);
      AddRing(LocalRsPhases(groups, bytes, nodeOf, n), LocalRsPhases(groups, bytes, nodeOf, n - 1),
              LocalRs(n - 1), ReduceScatter, groups[n - 1], bytes, nodeOf, [], width, n, each);
    }
  }

  lemma {:induction false} LocalAgBytes(groups: seq<seq<Rank>>, local: nat, bytes: nat, nodeOf: map<Rank, Node>,
                                        predecessors: seq<PhaseId>, width: nat, n: nat, each: int)
    requires n <= |groups| && Peopled(groups) && Rectangular(groups, local)
    requires width > 0 && RingAligned(AllGather, local, bytes, width)
    requires each == RingBytes(AllGather, local, bytes)
    ensures PlanBytes(LocalAgPhases(groups, bytes, nodeOf, predecessors, n)) == Times(n, each as real)
    decreases n
  {
    hide RingPhase;
    if n > 0 {
      LocalAgBytes(groups, local, bytes, nodeOf, predecessors, width, n - 1, each);
      AddRing(LocalAgPhases(groups, bytes, nodeOf, predecessors, n), LocalAgPhases(groups, bytes, nodeOf, predecessors, n - 1),
              LocalAg(n - 1), AllGather, groups[n - 1], bytes, nodeOf, predecessors, width, n, each);
    }
  }

  lemma {:induction false} InterArBytes(groups: seq<seq<Rank>>, bytes: nat, nodeOf: map<Rank, Node>, width: nat, n: nat, each: int)
    requires |groups| >= 1 && width > 0 && RingAligned(AllReduce, |groups|, bytes, width)
    requires each == RingBytes(AllReduce, |groups|, bytes)
    ensures PlanBytes(InterArPhases(groups, bytes, nodeOf, n)) == Times(n, each as real)
    decreases n
  {
    hide RingPhase;
    if n > 0 {
      InterArBytes(groups, bytes, nodeOf, width, n - 1, each);
      AddRing(InterArPhases(groups, bytes, nodeOf, n), InterArPhases(groups, bytes, nodeOf, n - 1),
              InterAr(n - 1), AllReduce, Slot(groups, n - 1, |groups|), bytes, nodeOf, LocalRsIds(|groups|), width, n, each);
    }
  }

  lemma {:induction false} InterAgBytes(groups: seq<seq<Rank>>, bytes: nat, nodeOf: map<Rank, Node>, width: nat, n: nat, each: int)
    requires |groups| >= 1 && width > 0 && RingAligned(AllGather, |groups|, bytes, width)
    requires each == RingBytes(AllGather, |groups|, bytes)
    ensures PlanBytes(InterAgPhases(groups, bytes, nodeOf, n)) == Times(n, each as real)
    decreases n
  {
    hide RingPhase;
    if n > 0 {
      InterAgBytes(groups, bytes, nodeOf, width, n - 1, each);
      AddRing(InterAgPhases(groups, bytes, nodeOf, n), InterAgPhases(groups, bytes, nodeOf, n - 1),
              InterAg(n - 1), AllGather, Slot(groups, n - 1, |groups|), bytes, nodeOf, [], width, n, each);
    }
  }

  lemma {:induction false} InterRsBytes(groups: seq<seq<Rank>>, bytes: nat, nodeOf: map<Rank, Node>, width: nat, n: nat, each: int)
    requires |groups| >= 1 && width > 0 && RingAligned(ReduceScatter, |groups|, bytes, width)
    requires each == RingBytes(ReduceScatter, |groups|, bytes)
    ensures PlanBytes(InterRsPhases(groups, bytes, nodeOf, n)) == Times(n, each as real)
    decreases n
  {
    hide RingPhase;
    if n > 0 {
      InterRsBytes(groups, bytes, nodeOf, width, n - 1, each);
      AddRing(InterRsPhases(groups, bytes, nodeOf, n), InterRsPhases(groups, bytes, nodeOf, n - 1),
              InterRs(n - 1), ReduceScatter, Slot(groups, n - 1, |groups|), bytes, nodeOf, AllLocalRsToIds(|groups|, |groups|), width, n, each);
    }
  }

  lemma {:induction false} TowardsBytes(group: seq<Rank>, g: nat, bytes: nat, nodeOf: map<Rank, Node>, reorder: bool, width: nat, n: nat, each: int)
    requires width > 0 && RingAligned(ReduceScatter, |group|, bytes, width)
    requires each == RingBytes(ReduceScatter, |group|, bytes)
    ensures PlanBytes(LocalRsToPhases(group, g, bytes, nodeOf, reorder, n)) == Times(n, each as real)
    decreases n
  {
    hide RingPhase;
    if n > 0 {
      TowardsBytes(group, g, bytes, nodeOf, reorder, width, n - 1, each);
      AddRing(LocalRsToPhases(group, g, bytes, nodeOf, reorder, n), LocalRsToPhases(group, g, bytes, nodeOf, reorder, n - 1),
              LocalRsTo(g, n - 1), ReduceScatter, group, bytes, nodeOf, if reorder then [InputLayout(g)] else [], width, n, each);
    }
  }

  lemma {:induction false} ScatterBytes(groups: seq<seq<Rank>>, local: nat, bytes: nat, nodeOf: map<Rank, Node>, reorder: bool,
                                        width: nat, n: nat, each: int)
    requires n <= |groups| && Peopled(groups) && Rectangular(groups, local)
    requires width > 0 && RingAligned(ReduceScatter, local, bytes, width)
    requires each == |groups| * RingBytes(ReduceScatter, local, bytes)
    ensures PlanBytes(AllLocalRsToPhases(groups, bytes, nodeOf, reorder, n)) == Times(n, each as real)
    decreases n
  {
    if n > 0 {
      ScatterBytes(groups, local, bytes, nodeOf, reorder, width, n - 1, each);
      TowardsBytes(groups[n - 1], n - 1, bytes, nodeOf, reorder, width, |groups|, RingBytes(ReduceScatter, local, bytes));
      WholeTimes(|groups|, RingBytes(ReduceScatter, local, bytes));
      BytesOfConcat(AllLocalRsToPhases(groups, bytes, nodeOf, reorder, n - 1),
                    LocalRsToPhases(groups[n - 1], n - 1, bytes, nodeOf, reorder, |groups|));
      }
  }

  lemma {:induction false} LayoutBytes(groups: seq<seq<Rank>>, bytes: nat, permutation: seq<nat>, n: nat)
    requires n <= |groups|
    ensures PlanBytes(LayoutPhases(groups, bytes, permutation, n)) == 0.0
    ensures PlanBytes(InputLayoutPhases(groups, bytes, permutation, n)) == 0.0
    decreases n
  {
    if n > 0 {
      LayoutBytes(groups, bytes, permutation, n - 1);
      AppendPhase(LayoutPhases(groups, bytes, permutation, n - 1),
                  TrafficPhase(Layout(n - 1), DataReorder, groups[n - 1], bytes, [], [LocalAg(n - 1)], permutation));
      AppendPhase(InputLayoutPhases(groups, bytes, permutation, n - 1),
                  TrafficPhase(InputLayout(n - 1), DataReorder, groups[n - 1], bytes, [], [], permutation));
    }
  }

  // ----- the arithmetic of two levels -----

  lemma {:induction false} AllReduceArithmetic(n: nat, l: nat, bytes: nat, share: nat)
    requires n >= 1 && l >= 1 && n * l >= 1 && bytes == l * share
    ensures n * RingBytes(ReduceScatter, l, bytes) + l * RingBytes(AllReduce, n, share) + n * RingBytes(AllGather, l, share) ==
            RingBytes(AllReduce, n * l, bytes)
  {
    assert l * (2 * (n - 1) * share) == 2 * (n - 1) * bytes;
    assert l * ((l - 1) * share) == (l - 1) * bytes;
    assert n * ((l - 1) * bytes) == n * l * bytes - n * bytes;
    assert 2 * (n - 1) * bytes == 2 * (n * bytes) - 2 * bytes;
    assert 2 * (n * l - 1) * bytes == 2 * (n * l * bytes) - 2 * bytes;
  }

  lemma {:induction false} AllGatherArithmetic(n: nat, l: nat, bytes: nat)
    requires n >= 1 && l >= 1 && n * l >= 1 && n * bytes >= 0
    ensures l * RingBytes(AllGather, n, bytes) + n * RingBytes(AllGather, l, n * bytes) == RingBytes(AllGather, n * l, bytes)
  {
    var m := n * l;
    assert l * (n * ((n - 1) * bytes)) == m * ((n - 1) * bytes);
    assert n * (l * ((l - 1) * (n * bytes))) == m * ((l - 1) * (n * bytes));
    assert (l - 1) * (n * bytes) == m * bytes - n * bytes;
    assert (n - 1) * bytes == n * bytes - bytes;
    assert (m - 1) * bytes == m * bytes - bytes;
    assert m * ((n - 1) * bytes) + m * ((l - 1) * (n * bytes)) == m * ((n - 1) * bytes + (l - 1) * (n * bytes));
  }

  lemma {:induction false} ReduceScatterArithmetic(n: nat, l: nat, bytes: nat, nodeShare: nat, slotShare: nat)
    requires n >= 1 && l >= 1 && n * l >= 1 && bytes == n * nodeShare && bytes == l * slotShare
    ensures n * (n * RingBytes(ReduceScatter, l, nodeShare)) + l * RingBytes(ReduceScatter, n, slotShare) ==
            RingBytes(ReduceScatter, n * l, bytes)
  {
    assert n * ((l - 1) * nodeShare) == (l - 1) * bytes;
    assert l * ((n - 1) * slotShare) == (n - 1) * bytes;
    assert n * ((l - 1) * bytes) == n * l * bytes - n * bytes;
    assert (n - 1) * bytes == n * bytes - bytes;
    assert (n * l - 1) * bytes == n * l * bytes - bytes;
  }

  lemma {:induction false} StagesBytes(a: seq<TrafficPhase>, b: seq<TrafficPhase>, c: seq<TrafficPhase>, x: int, y: int, z: int)
    requires PlanBytes(a) == x as real && PlanBytes(b) == y as real && PlanBytes(c) == z as real
    ensures PlanBytes(a + b + c) == (x + y + z) as real
  {
    BytesOfConcat(a, b);
    BytesOfConcat(a + b, c);
  }

  // ----- the theorem -----

  lemma {:induction false} AllReduceBytes(ranks: seq<Rank>, groups: seq<seq<Rank>>, local: nat, bytes: nat, nodeOf: map<Rank, Node>, width: nat)
    requires width > 0 && RingAligned(AllReduce, |ranks|, bytes, width)
    requires IsGrid(ranks, groups, local) && Peopled(groups) && !Flat(groups, local)
    ensures PlanBytes(AllReducePhases(groups, local, bytes, nodeOf)) == RingBytes(AllReduce, |ranks|, bytes) as real
  {
    var n, share := |groups|, Div(bytes, local);
    SubPhasesAligned(AllReduce, ranks, groups, local, bytes, width);
    GridAligned(AllReduce, ranks, groups, local, bytes, width);
    GridCount(ranks, groups, local);
    var a := LocalRsPhases(groups, bytes, nodeOf, n);
    var b := InterArPhases(groups, share, nodeOf, local);
    var c := LocalAgPhases(groups, share, nodeOf, InterArIds(local), n);
    LocalRsBytes(groups, local, bytes, nodeOf, width, n, RingBytes(ReduceScatter, local, bytes));
    WholeTimes(n, RingBytes(ReduceScatter, local, bytes));
    InterArBytes(groups, share, nodeOf, width, local, RingBytes(AllReduce, n, share));
    WholeTimes(local, RingBytes(AllReduce, n, share));
    LocalAgBytes(groups, local, share, nodeOf, InterArIds(local), width, n, RingBytes(AllGather, local, share));
    WholeTimes(n, RingBytes(AllGather, local, share));
    AllReduceArithmetic(n, local, bytes, share);
    StagesBytes(a, b, c, n * RingBytes(ReduceScatter, local, bytes), local * RingBytes(AllReduce, n, share),
                n * RingBytes(AllGather, local, share));
  }

  lemma {:induction false} GatherStagesBytes(groups: seq<seq<Rank>>, local: nat, bytes: nat, wide: nat, nodeOf: map<Rank, Node>, width: nat)
    requires width > 0 && |groups| >= 1 && Peopled(groups) && Rectangular(groups, local)
    requires RingAligned(AllGather, |groups|, bytes, width) && RingAligned(AllGather, local, wide, width)
    ensures PlanBytes(InterAgPhases(groups, bytes, nodeOf, local)) == (local * RingBytes(AllGather, |groups|, bytes)) as real
    ensures PlanBytes(LocalAgPhases(groups, wide, nodeOf, InterAgIds(local), |groups|)) ==
            (|groups| * RingBytes(AllGather, local, wide)) as real
  {
    InterAgBytes(groups, bytes, nodeOf, width, local, RingBytes(AllGather, |groups|, bytes));
    WholeTimes(local, RingBytes(AllGather, |groups|, bytes));
    LocalAgBytes(groups, local, wide, nodeOf, InterAgIds(local), width, |groups|, RingBytes(AllGather, local, wide));
    WholeTimes(|groups|, RingBytes(AllGather, local, wide));
  }

  lemma {:induction false} AllGatherBytes(ranks: seq<Rank>, groups: seq<seq<Rank>>, local: nat, bytes: nat, nodeOf: map<Rank, Node>, width: nat)
    requires width > 0 && RingAligned(AllGather, |ranks|, bytes, width)
    requires IsGrid(ranks, groups, local) && Peopled(groups) && !Flat(groups, local)
    ensures PlanBytes(AllGatherPhases(ranks, groups, local, bytes, nodeOf)) == RingBytes(AllGather, |ranks|, bytes) as real
  {
    var n := |groups|;
    MulNonNegative(n, bytes);
    MulNonNegative(|ranks|, bytes);
    var wide, whole := n * bytes, |ranks| * bytes;
    SubPhasesAligned(AllGather, ranks, groups, local, bytes, width);
    var permutation := Positions(SlotMajor(groups, local), ranks, |ranks|);
    var layout := if bytes > 0 && permutation != Identity(|ranks|) then LayoutPhases(groups, whole, permutation, n) else [];
    GatherStagesBytes(groups, local, bytes, wide, nodeOf, width);
    LayoutBytes(groups, whole, permutation, n);
    StagesBytes(InterAgPhases(groups, bytes, nodeOf, local), LocalAgPhases(groups, wide, nodeOf, InterAgIds(local), n), layout,
                local * RingBytes(AllGather, n, bytes), n * RingBytes(AllGather, local, wide), 0);
    GridCount(ranks, groups, local);
    AllGatherArithmetic(n, local, bytes);
  }

  lemma {:induction false} GridShares(ranks: seq<Rank>, groups: seq<seq<Rank>>, local: nat, bytes: nat, width: nat)
    requires width > 0 && RingAligned(ReduceScatter, |ranks|, bytes, width)
    requires IsGrid(ranks, groups, local) && !Flat(groups, local)
    ensures bytes == |groups| * Div(bytes, |groups|) && bytes == local * Div(bytes, local)
  {
    var n := |groups|;
    GridCount(ranks, groups, local);
    MulMono(2, n, local);
    AlignedShare(bytes, n, local, width);
    assert n * local == local * n;
    AlignedShare(bytes, local, n, width);
  }

  lemma {:induction false} ReduceScatterBytes(ranks: seq<Rank>, groups: seq<seq<Rank>>, local: nat, bytes: nat, nodeOf: map<Rank, Node>, width: nat)
    requires width > 0 && RingAligned(ReduceScatter, |ranks|, bytes, width)
    requires IsGrid(ranks, groups, local) && Peopled(groups) && !Flat(groups, local)
    ensures PlanBytes(ReduceScatterPhases(ranks, groups, local, bytes, nodeOf)) ==
            RingBytes(ReduceScatter, |ranks|, bytes) as real
  {
    var n, grouped := |groups|, Flatten(groups, |groups|);
    var nodeShare, slotShare := Div(bytes, n), Div(bytes, local);
    SubPhasesAligned(ReduceScatter, ranks, groups, local, bytes, width);
    var reorder := grouped != ranks && bytes > 0;
    var permutation := Positions(ranks, grouped, |grouped|);
    var layout := if reorder then InputLayoutPhases(groups, bytes, permutation, n) else [];
    var inter := InterRsPhases(groups, slotShare, nodeOf, local);
    LayoutBytes(groups, bytes, permutation, n);
    ScatterBytes(groups, local, nodeShare, nodeOf, reorder, width, n, n * RingBytes(ReduceScatter, local, nodeShare));
    WholeTimes(n, n * RingBytes(ReduceScatter, local, nodeShare));
    InterRsBytes(groups, slotShare, nodeOf, width, local, RingBytes(ReduceScatter, n, slotShare));
    WholeTimes(local, RingBytes(ReduceScatter, n, slotShare));
    StagesBytes(layout, AllLocalRsToPhases(groups, nodeShare, nodeOf, reorder, n), inter,
                0, n * (n * RingBytes(ReduceScatter, local, nodeShare)), local * RingBytes(ReduceScatter, n, slotShare));
    GridShares(ranks, groups, local, bytes, width);
    GridCount(ranks, groups, local);
    ReduceScatterArithmetic(n, local, bytes, nodeShare, slotShare);
  }

  /** Whatever the placement, the plan puts the flat ring's volume on the wire. */
  lemma {:induction false} PlanMovesRingVolume(operation: Operation, ranks: seq<Rank>, bytes: nat, nodeOf: map<Rank, Node>, width: nat)
    requires width > 0 && Accepts(operation, ranks, bytes, nodeOf, width)
    ensures PlanBytes(Plan(operation, ranks, bytes, nodeOf).phases) == RingBytes(operation, |ranks|, bytes) as real
  {
    var groups := Groups(ranks, nodeOf);
    var local := |groups[0]|;
    GridOfGroups(ranks, nodeOf);
    if Flat(groups, local) {
      var phase := RingPhase(Ring, operation, ranks, bytes, nodeOf, []);
      RingPhaseBytes(Ring, operation, ranks, bytes, nodeOf, [], width);
      AppendPhase([], phase);
      assert [] + [phase] == [phase];
    } else if operation.AllReduce? {
      AllReduceBytes(ranks, groups, local, bytes, nodeOf, width);
    } else if operation.AllGather? {
      AllGatherBytes(ranks, groups, local, bytes, nodeOf, width);
    } else {
      ReduceScatterBytes(ranks, groups, local, bytes, nodeOf, width);
    }
  }
}
