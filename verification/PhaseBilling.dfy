/** No phase of a collective plan sends a negative number of bytes, so each has a timetable. */
module PhaseBilling {
  import opened Common
  import opened TrafficTypes
  import opened CollectivePlan
  import opened Collectives
  import opened Grid
  import opened PhaseSchedule

  /** `relative_timetable` accepts every one of these phases. */
  ghost predicate AllBillable(phases: seq<TrafficPhase>) {
    forall k :: 0 <= k < |phases| ==> BillableRounds(phases[k].rounds)
  }

  lemma {:induction false} BillableTogether(a: seq<TrafficPhase>, b: seq<TrafficPhase>)
    requires AllBillable(a) && AllBillable(b)
    ensures AllBillable(a + b)
  {
    hide BillableRounds;
  }

  lemma {:induction false} RingRoundBillable(ranks: seq<Rank>, nodeOf: map<Rank, Node>, chunk: nat, shift: int, n: nat)
    requires n <= |ranks|
    ensures Billable(RingRound(ranks, nodeOf, chunk, shift, n))
    decreases n
  {
    if n > 0 { RingRoundBillable(ranks, nodeOf, chunk, shift, n - 1); }
  }

  lemma {:induction false} RingRoundsBillable(operation: Operation, ranks: seq<Rank>, nodeOf: map<Rank, Node>, chunk: nat, n: nat)
    ensures BillableRounds(RingRoundList(operation, ranks, nodeOf, chunk, n))
    decreases n
  {
    hide Billable, RingRound;
    if n > 0 {
      RingRoundsBillable(operation, ranks, nodeOf, chunk, n - 1);
      RingRoundBillable(ranks, nodeOf, chunk, RingShift(operation, |ranks|, n - 1), |ranks|);
    }
  }

  lemma {:induction false} RingBillable(id: PhaseId, operation: Operation, ranks: seq<Rank>, bytes: nat, nodeOf: map<Rank, Node>, predecessors: seq<PhaseId>)
    requires |ranks| >= 1
    ensures AllBillable([RingPhase(id, operation, ranks, bytes, nodeOf, predecessors)])
  {
    hide BillableRounds, RingRoundList;
    var total := if |ranks| > 1 && bytes > 0 then RingRounds(operation, |ranks|) else 0;
    RingRoundsBillable(operation, ranks, nodeOf, ShardBytes(operation, |ranks|, bytes), total);
  }

  lemma {:induction false} SilentBillable(id: PhaseId, operation: Operation, ranks: seq<Rank>, bytes: nat, predecessors: seq<PhaseId>, permutation: seq<nat>)
    ensures AllBillable([TrafficPhase(id, operation, ranks, bytes, [], predecessors, permutation)])
  {
  }

  // ----- the stages -----

  lemma {:induction false} LocalRsBillable(groups: seq<seq<Rank>>, bytes: nat, nodeOf: map<Rank, Node>, n: nat)
    requires n <= |groups| && Peopled(groups)
    ensures AllBillable(LocalRsPhases(groups, bytes, nodeOf, n))
    decreases n
  {
    hide BillableRounds, RingPhase;
    if n > 0 {
      LocalRsBillable(groups, bytes, nodeOf, n - 1);
      RingBillable(LocalRs(n - 1), ReduceScatter, groups[n - 1], bytes, nodeOf, []);
    }
  }

  lemma {:induction false} InterArBillable(groups: seq<seq<Rank>>, bytes: nat, nodeOf: map<Rank, Node>, n: nat)
    requires |groups| >= 1
    ensures AllBillable(InterArPhases(groups, bytes, nodeOf, n))
    decreases n
  {
    hide BillableRounds, RingPhase;
    if n > 0 {
      InterArBillable(groups, bytes, nodeOf, n - 1);
      RingBillable(InterAr(n - 1), AllReduce, Slot(groups, n - 1, |groups|), bytes, nodeOf, LocalRsIds(|groups|));
    }
  }

  lemma {:induction false} LocalAgBillable(groups: seq<seq<Rank>>, bytes: nat, nodeOf: map<Rank, Node>, predecessors: seq<PhaseId>, n: nat)
    requires n <= |groups| && Peopled(groups)
    ensures AllBillable(LocalAgPhases(groups, bytes, nodeOf, predecessors, n))
    decreases n
  {
    hide BillableRounds, RingPhase;
    if n > 0 {
      LocalAgBillable(groups, bytes, nodeOf, predecessors, n - 1);
      RingBillable(LocalAg(n - 1), AllGather, groups[n - 1], bytes, nodeOf, predecessors);
    }
  }

  lemma {:induction false} InterAgBillable(groups: seq<seq<Rank>>, bytes: nat, nodeOf: map<Rank, Node>, n: nat)
    requires |groups| >= 1
    ensures AllBillable(InterAgPhases(groups, bytes, nodeOf, n))
    decreases n
  {
    hide BillableRounds, RingPhase;
    if n > 0 {
      InterAgBillable(groups, bytes, nodeOf, n - 1);
      RingBillable(InterAg(n - 1), AllGather, Slot(groups, n - 1, |groups|), bytes, nodeOf, []);
    }
  }

  lemma {:induction false} LayoutsBillable(groups: seq<seq<Rank>>, bytes: nat, permutation: seq<nat>, n: nat)
    requires n <= |groups|
    ensures AllBillable(LayoutPhases(groups, bytes, permutation, n)) && AllBillable(InputLayoutPhases(groups, bytes, permutation, n))
    decreases n
  {
    hide BillableRounds;
    if n > 0 {
      LayoutsBillable(groups, bytes, permutation, n - 1);
      SilentBillable(Layout(n - 1), DataReorder, groups[n - 1], bytes, [LocalAg(n - 1)], permutation);
      SilentBillable(InputLayout(n - 1), DataReorder, groups[n - 1], bytes, [], permutation);
    }
  }

  lemma {:induction false} TowardsBillable(group: seq<Rank>, g: nat, bytes: nat, nodeOf: map<Rank, Node>, reorder: bool, n: nat)
    requires |group| >= 1
    ensures AllBillable(LocalRsToPhases(group, g, bytes, nodeOf, reorder, n))
    decreases n
  {
    hide BillableRounds, RingPhase;
    if n > 0 {
      TowardsBillable(group, g, bytes, nodeOf, reorder, n - 1);
      RingBillable(LocalRsTo(g, n - 1), ReduceScatter, group, bytes, nodeOf, if reorder then [InputLayout(g)] else []);
    }
  }

  lemma {:induction false} ScatterBillable(groups: seq<seq<Rank>>, bytes: nat, nodeOf: map<Rank, Node>, reorder: bool, n: nat)
    requires n <= |groups| && Peopled(groups)
    ensures AllBillable(AllLocalRsToPhases(groups, bytes, nodeOf, reorder, n))
    decreases n
  {
    hide BillableRounds, LocalRsToPhases;
    if n > 0 {
      ScatterBillable(groups, bytes, nodeOf, reorder, n - 1);
      TowardsBillable(groups[n - 1], n - 1, bytes, nodeOf, reorder, |groups|);
    }
  }

  lemma {:induction false} InterRsBillable(groups: seq<seq<Rank>>, bytes: nat, nodeOf: map<Rank, Node>, n: nat)
    requires |groups| >= 1
    ensures AllBillable(InterRsPhases(groups, bytes, nodeOf, n))
    decreases n
  {
    hide BillableRounds, RingPhase;
    if n > 0 {
      InterRsBillable(groups, bytes, nodeOf, n - 1);
      RingBillable(InterRs(n - 1), ReduceScatter, Slot(groups, n - 1, |groups|), bytes, nodeOf, AllLocalRsToIds(|groups|, |groups|));
    }
  }

  // ----- whole plans -----

  lemma {:induction false} AllReduceBillable(groups: seq<seq<Rank>>, local: nat, bytes: nat, nodeOf: map<Rank, Node>)
    requires |groups| >= 1 && Peopled(groups) && local >= 1
    ensures AllBillable(AllReducePhases(groups, local, bytes, nodeOf))
  {
    hide AllBillable, LocalRsPhases, InterArPhases, LocalAgPhases;
    var n, share := |groups|, Div(bytes, local);
    var a, b, c := LocalRsPhases(groups, bytes, nodeOf, n), InterArPhases(groups, share, nodeOf, local),
                   LocalAgPhases(groups, share, nodeOf, InterArIds(local), n);
    LocalRsBillable(groups, bytes, nodeOf, n);
    InterArBillable(groups, share, nodeOf, local);
    LocalAgBillable(groups, share, nodeOf, InterArIds(local), n);
    BillableTogether(a, b);
    BillableTogether(a + b, c);
  }

  lemma {:induction false} AllGatherBillable(ranks: seq<Rank>, groups: seq<seq<Rank>>, local: nat, bytes: nat, nodeOf: map<Rank, Node>)
    requires |groups| >= 1 && Peopled(groups)
    ensures AllBillable(AllGatherPhases(ranks, groups, local, bytes, nodeOf))
  {
    hide BillableRounds, InterAgPhases, LocalAgPhases, LayoutPhases, Positions, SlotMajor, Identity;
    MulNonNegative(|groups|, bytes);
    MulNonNegative(|ranks|, bytes);
    var n, wide, whole := |groups|, |groups| * bytes, |ranks| * bytes;
    var permutation := Positions(SlotMajor(groups, local), ranks, |ranks|);
    InterAgBillable(groups, bytes, nodeOf, local);
    LocalAgBillable(groups, wide, nodeOf, InterAgIds(local), n);
    LayoutsBillable(groups, whole, permutation, n);
  }

  lemma {:induction false} ReduceScatterBillable(ranks: seq<Rank>, groups: seq<seq<Rank>>, local: nat, bytes: nat, nodeOf: map<Rank, Node>)
    requires |groups| >= 1 && Peopled(groups) && local >= 1
    ensures AllBillable(ReduceScatterPhases(ranks, groups, local, bytes, nodeOf))
  {
    hide BillableRounds, InputLayoutPhases, AllLocalRsToPhases, InterRsPhases, Positions, Flatten;
    var grouped := Flatten(groups, |groups|);
    var reorder := grouped != ranks && bytes > 0;
    LayoutsBillable(groups, bytes, Positions(ranks, grouped, |grouped|), |groups|);
    ScatterBillable(groups, Div(bytes, |groups|), nodeOf, reorder, |groups|);
    InterRsBillable(groups, Div(bytes, local), nodeOf, local);
  }

  /** Every phase of every collective plan has a timetable. */
  lemma {:induction false} PlanBillable(operation: Operation, ranks: seq<Rank>, bytes: nat, nodeOf: map<Rank, Node>)
    requires Participants(ranks, nodeOf) && Balanced(Groups(ranks, nodeOf))
    ensures AllBillable(Plan(operation, ranks, bytes, nodeOf).phases)
  {
    hide AllBillable, RingPhase, AllReducePhases, AllGatherPhases, ReduceScatterPhases, Groups;
    var groups := Groups(ranks, nodeOf);
    var local := |groups[0]|;
    GridOfGroups(ranks, nodeOf);
    if Flat(groups, local) {
      RingBillable(Ring, operation, ranks, bytes, nodeOf, []);
    } else if operation.AllReduce? {
      AllReduceBillable(groups, local, bytes, nodeOf);
    } else if operation.AllGather? {
      AllGatherBillable(ranks, groups, local, bytes, nodeOf);
    } else {
      ReduceScatterBillable(ranks, groups, local, bytes, nodeOf);
    }
  }
}
