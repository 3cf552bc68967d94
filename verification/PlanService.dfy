/** Every plan that `collective_plan` builds is scheduled to the end, and how long it can take. */
module PlanService {
  import opened Common
  import opened TrafficTypes
  import opened CollectivePlan
  import opened Collectives
  import opened CollectiveBuilder
  import opened Grid
  import opened ListSchedule
  import opened PhaseSchedule
  import opened PlanSchedule
  import opened PhaseBilling

  // ----- the stages of a collective come in dependency order -----

  /** `all` is `earlier` and one more phase that waits only for `known` ones. */
  lemma {:induction false} OneMore(earlier: seq<TrafficPhase>, all: seq<TrafficPhase>, phase: TrafficPhase, known: set<PhaseId>)
    requires all == earlier + [phase] && Orderly(earlier, known)
    requires phase.id !in known && phase.id !in IdsUpTo(earlier, |earlier|)
    requires forall id :: id in phase.predecessors ==> id in known
    ensures Orderly(all, known) && IdsUpTo(all, |all|) == IdsUpTo(earlier, |earlier|) + {phase.id}
  {
    IdsOfPrefix(earlier, [phase], all, |earlier|);
    forall k | 0 <= k < |all| ensures OrderlyAt(all, known, k) {
      IdsOfPrefix(earlier, [phase], all, k);
      assert k < |earlier| ==> OrderlyAt(earlier, known, k);
    }
  }

  lemma {:induction false} NoneOrderly(known: set<PhaseId>)
    ensures Orderly([], known)
  {
  }

  lemma {:induction false} RingOf(id: PhaseId, operation: Operation, ranks: seq<Rank>, bytes: nat, nodeOf: map<Rank, Node>, predecessors: seq<PhaseId>)
    requires |ranks| >= 1
    ensures var p := RingPhase(id, operation, ranks, bytes, nodeOf, predecessors); p.id == id && p.predecessors == predecessors
  {
  }

  ghost predicate OnlyLocalRs(ids: set<PhaseId>, n: nat) { forall id :: id in ids <==> id.LocalRs? && id.group < n }
  ghost predicate OnlyInterAr(ids: set<PhaseId>, n: nat) { forall id :: id in ids <==> id.InterAr? && id.slot < n }
  ghost predicate OnlyLocalAg(ids: set<PhaseId>, n: nat) { forall id :: id in ids <==> id.LocalAg? && id.group < n }
  ghost predicate OnlyInterAg(ids: set<PhaseId>, n: nat) { forall id :: id in ids <==> id.InterAg? && id.slot < n }
  ghost predicate OnlyInputLayout(ids: set<PhaseId>, n: nat) { forall id :: id in ids <==> id.InputLayout? && id.group < n }

  lemma {:induction false} LocalRsIdsAre(n: nat, id: PhaseId)
    ensures id in LocalRsIds(n) <==> id.LocalRs? && id.group < n
    decreases n
  {
    if n > 0 { LocalRsIdsAre(n - 1, id); }
  }

  lemma {:induction false} InterArIdsAre(n: nat, id: PhaseId)
    ensures id in InterArIds(n) <==> id.InterAr? && id.slot < n
    decreases n
  {
    if n > 0 { InterArIdsAre(n - 1, id); }
  }

  lemma {:induction false} InterAgIdsAre(n: nat, id: PhaseId)
    ensures id in InterAgIds(n) <==> id.InterAg? && id.slot < n
    decreases n
  {
    if n > 0 { InterAgIdsAre(n - 1, id); }
  }

  lemma {:induction false} LocalRsToIdsAre(g: nat, n: nat, id: PhaseId)
    ensures id in LocalRsToIds(g, n) <==> id.LocalRsTo? && id.group == g && id.destination < n
    decreases n
  {
    if n > 0 { LocalRsToIdsAre(g, n - 1, id); }
  }

  lemma {:induction false} AllLocalRsToIdsAre(n: nat, d: nat, id: PhaseId)
    ensures id in AllLocalRsToIds(n, d) <==> id.LocalRsTo? && id.group < n && id.destination < d
    decreases n
  {
    if n > 0 {
      AllLocalRsToIdsAre(n - 1, d, id);
      LocalRsToIdsAre(n - 1, d, id);
    }
  }

  lemma {:induction false} LocalRsOrderly(groups: seq<seq<Rank>>, bytes: nat, nodeOf: map<Rank, Node>, n: nat, phases: seq<TrafficPhase>)
    requires n <= |groups| && Peopled(groups) && phases == LocalRsPhases(groups, bytes, nodeOf, n)
    ensures Orderly(phases, {}) && OnlyLocalRs(IdsUpTo(phases, |phases|), n)
    decreases n
  {
    if n > 0 {
      var earlier := LocalRsPhases(groups, bytes, nodeOf, n - 1);
      LocalRsOrderly(groups, bytes, nodeOf, n - 1, earlier);
      OneMore(earlier, phases, RingPhase(LocalRs(n - 1), ReduceScatter, groups[n - 1], bytes, nodeOf, []), {});
    }
  }

  lemma {:induction false} InterArOrderly(groups: seq<seq<Rank>>, bytes: nat, nodeOf: map<Rank, Node>, n: nat, phases: seq<TrafficPhase>, known: set<PhaseId>)
    requires |groups| >= 1 && phases == InterArPhases(groups, bytes, nodeOf, n) && OnlyLocalRs(known, |groups|)
    ensures Orderly(phases, known) && OnlyInterAr(IdsUpTo(phases, |phases|), n)
    decreases n
  {
    hide RingPhase, Orderly, Slot, LocalRsIds;
    if n > 0 {
      var earlier := InterArPhases(groups, bytes, nodeOf, n - 1);
      InterArOrderly(groups, bytes, nodeOf, n - 1, earlier, known);
      RingOf(InterAr(n - 1), AllReduce, Slot(groups, n - 1, |groups|), bytes, nodeOf, LocalRsIds(|groups|));
      forall id ensures id in LocalRsIds(|groups|) ==> id in known { LocalRsIdsAre(|groups|, id); }
      OneMore(earlier, phases,
              RingPhase(InterAr(n - 1), AllReduce, Slot(groups, n - 1, |groups|), bytes, nodeOf, LocalRsIds(|groups|)), known);
    } else {
      NoneOrderly(known);
    }
  }

  lemma {:induction false} LocalAgOrderly(groups: seq<seq<Rank>>, bytes: nat, nodeOf: map<Rank, Node>, waits: seq<PhaseId>, n: nat,
                                          phases: seq<TrafficPhase>, known: set<PhaseId>)
    requires n <= |groups| && Peopled(groups) && phases == LocalAgPhases(groups, bytes, nodeOf, waits, n)
    requires forall id :: id in waits ==> id in known
    requires forall id :: id in known ==> !id.LocalAg?
    ensures Orderly(phases, known) && OnlyLocalAg(IdsUpTo(phases, |phases|), n)
    decreases n
  {
    if n > 0 {
      var earlier := LocalAgPhases(groups, bytes, nodeOf, waits, n - 1);
      LocalAgOrderly(groups, bytes, nodeOf, waits, n - 1, earlier, known);
      OneMore(earlier, phases, RingPhase(LocalAg(n - 1), AllGather, groups[n - 1], bytes, nodeOf, waits), known);
    }
  }

  lemma {:induction false} InterAgOrderly(groups: seq<seq<Rank>>, bytes: nat, nodeOf: map<Rank, Node>, n: nat, phases: seq<TrafficPhase>)
    requires |groups| >= 1 && phases == InterAgPhases(groups, bytes, nodeOf, n)
    ensures Orderly(phases, {}) && OnlyInterAg(IdsUpTo(phases, |phases|), n)
    decreases n
  {
    if n > 0 {
      var earlier := InterAgPhases(groups, bytes, nodeOf, n - 1);
      InterAgOrderly(groups, bytes, nodeOf, n - 1, earlier);
      OneMore(earlier, phases, RingPhase(InterAg(n - 1), AllGather, Slot(groups, n - 1, |groups|), bytes, nodeOf, []), {});
    }
  }

  lemma {:induction false} LayoutOrderly(groups: seq<seq<Rank>>, bytes: nat, permutation: seq<nat>, n: nat, phases: seq<TrafficPhase>, known: set<PhaseId>)
    requires n <= |groups| && phases == LayoutPhases(groups, bytes, permutation, n)
    requires forall g :: 0 <= g < |groups| ==> LocalAg(g) in known
    requires forall id :: id in known ==> !id.Layout?
    ensures Orderly(phases, known) && forall id :: id in IdsUpTo(phases, |phases|) <==> id.Layout? && id.group < n
    decreases n
  {
    if n > 0 {
      var earlier := LayoutPhases(groups, bytes, permutation, n - 1);
      LayoutOrderly(groups, bytes, permutation, n - 1, earlier, known);
      OneMore(earlier, phases, TrafficPhase(Layout(n - 1), DataReorder, groups[n - 1], bytes, [], [LocalAg(n - 1)], permutation), known);
    }
  }

  lemma {:induction false} InputLayoutOrderly(groups: seq<seq<Rank>>, bytes: nat, permutation: seq<nat>, n: nat, phases: seq<TrafficPhase>)
    requires n <= |groups| && phases == InputLayoutPhases(groups, bytes, permutation, n)
    ensures Orderly(phases, {}) && OnlyInputLayout(IdsUpTo(phases, |phases|), n)
    decreases n
  {
    if n > 0 {
      var earlier := InputLayoutPhases(groups, bytes, permutation, n - 1);
      InputLayoutOrderly(groups, bytes, permutation, n - 1, earlier);
      OneMore(earlier, phases, TrafficPhase(InputLayout(n - 1), DataReorder, groups[n - 1], bytes, [], [], permutation), {});
    }
  }

  lemma {:induction false} TowardsOrderly(group: seq<Rank>, g: nat, bytes: nat, nodeOf: map<Rank, Node>, reorder: bool, n: nat,
                                          phases: seq<TrafficPhase>, known: set<PhaseId>)
    requires |group| >= 1 && phases == LocalRsToPhases(group, g, bytes, nodeOf, reorder, n)
    requires reorder ==> InputLayout(g) in known
    requires forall id :: id in known ==> id.LocalRsTo? ==> id.group < g
    ensures Orderly(phases, known)
    ensures forall id :: id in IdsUpTo(phases, |phases|) <==> id.LocalRsTo? && id.group == g && id.destination < n
    decreases n
  {
    if n > 0 {
      var earlier := LocalRsToPhases(group, g, bytes, nodeOf, reorder, n - 1);
      TowardsOrderly(group, g, bytes, nodeOf, reorder, n - 1, earlier, known);
      OneMore(earlier, phases,
              RingPhase(LocalRsTo(g, n - 1), ReduceScatter, group, bytes, nodeOf, if reorder then [InputLayout(g)] else []), known);
    }
  }

  lemma {:induction false} ScatterOrderly(groups: seq<seq<Rank>>, bytes: nat, nodeOf: map<Rank, Node>, reorder: bool, n: nat,
                                          phases: seq<TrafficPhase>, known: set<PhaseId>)
    requires n <= |groups| && Peopled(groups) && phases == AllLocalRsToPhases(groups, bytes, nodeOf, reorder, n)
    requires reorder ==> OnlyInputLayout(known, |groups|)
    requires forall id :: id in known ==> id.InputLayout?
    ensures Orderly(phases, known)
    ensures forall id :: id in IdsUpTo(phases, |phases|) <==> id.LocalRsTo? && id.group < n && id.destination < |groups|
    decreases n
  {
    if n > 0 {
      var earlier := AllLocalRsToPhases(groups, bytes, nodeOf, reorder, n - 1);
      var towards := LocalRsToPhases(groups[n - 1], n - 1, bytes, nodeOf, reorder, |groups|);
      ScatterOrderly(groups, bytes, nodeOf, reorder, n - 1, earlier, known);
      var wider := known + IdsUpTo(earlier, |earlier|);
      TowardsOrderly(groups[n - 1], n - 1, bytes, nodeOf, reorder, |groups|, towards, wider);
      Followed(earlier, towards, phases, known, wider);
    }
  }

  lemma {:induction false} InterRsOrderly(groups: seq<seq<Rank>>, bytes: nat, nodeOf: map<Rank, Node>, n: nat, phases: seq<TrafficPhase>, known: set<PhaseId>)
    requires |groups| >= 1 && phases == InterRsPhases(groups, bytes, nodeOf, n)
    requires forall id: PhaseId :: id.LocalRsTo? && id.group < |groups| && id.destination < |groups| ==> id in known
    requires forall id :: id in known ==> !id.InterRs?
    ensures Orderly(phases, known)
    ensures forall id :: id in IdsUpTo(phases, |phases|) <==> id.InterRs? && id.slot < n
    decreases n
  {
    hide RingPhase, Orderly, Slot, AllLocalRsToIds;
    if n > 0 {
      var earlier := InterRsPhases(groups, bytes, nodeOf, n - 1);
      InterRsOrderly(groups, bytes, nodeOf, n - 1, earlier, known);
      RingOf(InterRs(n - 1), ReduceScatter, Slot(groups, n - 1, |groups|), bytes, nodeOf, AllLocalRsToIds(|groups|, |groups|));
      var waits := AllLocalRsToIds(|groups|, |groups|);
      forall id ensures id in waits ==> id in known { AllLocalRsToIdsAre(|groups|, |groups|, id); }
      OneMore(earlier, phases,
              RingPhase(InterRs(n - 1), ReduceScatter, Slot(groups, n - 1, |groups|), bytes, nodeOf, waits), known);
    } else {
      NoneOrderly(known);
    }
  }

  // ----- whole plans -----

  lemma {:induction false} AllReduceOrderly(groups: seq<seq<Rank>>, local: nat, bytes: nat, nodeOf: map<Rank, Node>, phases: seq<TrafficPhase>)
    requires |groups| >= 1 && Peopled(groups) && local >= 1 && phases == AllReducePhases(groups, local, bytes, nodeOf)
    ensures Orderly(phases, {})
  {
    var n, share, waits := |groups|, Div(bytes, local), InterArIds(local);
    var a := LocalRsPhases(groups, bytes, nodeOf, n);
    var b := InterArPhases(groups, share, nodeOf, local);
    var c := LocalAgPhases(groups, share, nodeOf, waits, n);
    LocalRsOrderly(groups, bytes, nodeOf, n, a);
    InterArOrderly(groups, share, nodeOf, local, b, IdsUpTo(a, |a|));
    var known := IdsUpTo(a, |a|) + IdsUpTo(b, |b|);
    forall id ensures id in waits ==> id in known { InterArIdsAre(local, id); }
    LocalAgOrderly(groups, share, nodeOf, waits, n, c, known);
    Staged(a, b, c, phases);
  }

  lemma {:induction false} AllGatherOrderly(ranks: seq<Rank>, groups: seq<seq<Rank>>, local: nat, bytes: nat, nodeOf: map<Rank, Node>, phases: seq<TrafficPhase>)
    requires |groups| >= 1 && Peopled(groups) && phases == AllGatherPhases(ranks, groups, local, bytes, nodeOf)
    ensures Orderly(phases, {})
  {
    MulNonNegative(|groups|, bytes);
    MulNonNegative(|ranks|, bytes);
    var n, wide, whole, waits := |groups|, |groups| * bytes, |ranks| * bytes, InterAgIds(local);
    var permutation := Positions(SlotMajor(groups, local), ranks, |ranks|);
    var a := InterAgPhases(groups, bytes, nodeOf, local);
    var b := LocalAgPhases(groups, wide, nodeOf, waits, n);
    var c := if bytes > 0 && permutation != Identity(|ranks|) then LayoutPhases(groups, whole, permutation, n) else [];
    InterAgOrderly(groups, bytes, nodeOf, local, a);
    forall id ensures id in waits ==> id in IdsUpTo(a, |a|) { InterAgIdsAre(local, id); }
    LocalAgOrderly(groups, wide, nodeOf, waits, n, b, IdsUpTo(a, |a|));
    if c != [] {
      LayoutOrderly(groups, whole, permutation, n, c, IdsUpTo(a, |a|) + IdsUpTo(b, |b|));
    }
    Staged(a, b, c, phases);
  }

  lemma {:induction false} ReduceScatterOrderly(ranks: seq<Rank>, groups: seq<seq<Rank>>, local: nat, bytes: nat, nodeOf: map<Rank, Node>, phases: seq<TrafficPhase>)
    requires |groups| >= 1 && Peopled(groups) && local >= 1 && phases == ReduceScatterPhases(ranks, groups, local, bytes, nodeOf)
    ensures Orderly(phases, {})
  {
    var n, grouped := |groups|, Flatten(groups, |groups|);
    var reorder := grouped != ranks && bytes > 0;
    var permutation := Positions(ranks, grouped, |grouped|);
    var a := if reorder then InputLayoutPhases(groups, bytes, permutation, n) else [];
    var b := AllLocalRsToPhases(groups, Div(bytes, n), nodeOf, reorder, n);
    var c := InterRsPhases(groups, Div(bytes, local), nodeOf, local);
    if reorder { InputLayoutOrderly(groups, bytes, permutation, n, a); }
    ScatterOrderly(groups, Div(bytes, n), nodeOf, reorder, n, b, IdsUpTo(a, |a|));
    InterRsOrderly(groups, Div(bytes, local), nodeOf, local, c, IdsUpTo(a, |a|) + IdsUpTo(b, |b|));
    Staged(a, b, c, phases);
  }

  /** In every plan a phase waits only for phases listed before it. */
  lemma {:induction false} PlanOrderly(operation: Operation, ranks: seq<Rank>, bytes: nat, nodeOf: map<Rank, Node>, phases: seq<TrafficPhase>)
    requires Participants(ranks, nodeOf) && Balanced(Groups(ranks, nodeOf))
    requires phases == Plan(operation, ranks, bytes, nodeOf).phases
    ensures Orderly(phases, {})
  {
    var groups := Groups(ranks, nodeOf);
    var local := |groups[0]|;
    GridOfGroups(ranks, nodeOf);
    if Flat(groups, local) {
      assert OrderlyAt(phases, {}, 0);
    } else if operation.AllReduce? {
      AllReduceOrderly(groups, local, bytes, nodeOf, phases);
    } else if operation.AllGather? {
      AllGatherOrderly(ranks, groups, local, bytes, nodeOf, phases);
    } else {
      ReduceScatterOrderly(ranks, groups, local, bytes, nodeOf, phases);
    }
  }

  /** The service time of a phase by its own timetable. */
  function PhaseCost(config: Domains): TrafficPhase -> real
    requires ValidDomains(config)
  {
    (p: TrafficPhase) => PhaseService(p, config)
  }

  /** Every phase of a collective plan has a timetable, and `service` completes within the bounds of its resources and dependencies. */
  lemma {:induction false} CollectiveServed(operation: Operation, ranks: seq<Rank>, bytes: nat, nodeOf: map<Rank, Node>, width: nat,
                                            config: Domains, order: PhaseId -> nat)
    requires width > 0 && Accepts(operation, ranks, bytes, nodeOf, width) && ValidDomains(config)
    ensures var schedule := Schedule(Plan(operation, ranks, bytes, nodeOf).phases, [], PhaseCost(config), order);
      && AllBillable(Plan(operation, ranks, bytes, nodeOf).phases)
      && schedule.Some? && WellServed(Plan(operation, ranks, bytes, nodeOf).phases, PhaseCost(config), schedule.value)
  {
    hide AllBillable, WellServed, Plan, Schedule, Orderly;
    var phases := Plan(operation, ranks, bytes, nodeOf).phases;
    PlanBillable(operation, ranks, bytes, nodeOf);
    PlanOrderly(operation, ranks, bytes, nodeOf, phases);
    PhasesCost(phases, config);
    ServiceGuarantees(phases, PhaseCost(config), order);
  }

  lemma {:induction false} PhasesCost(phases: seq<TrafficPhase>, config: Domains)
    requires ValidDomains(config)
    ensures NonNegative(phases, PhaseCost(config))
  {
    forall k | 0 <= k < |phases| ensures PhaseCost(config)(phases[k]) >= 0.0 {
      var table := Timetable(phases[k].rounds, |phases[k].rounds|, config);
      AvailableInMakespan(table, |table|, LocalFabric(0));
    }
  }
}
