/** `collective_plan` as it runs: dictionaries, loops and early exits. */
module CollectiveBuilder {
  import opened Common
  import opened TrafficTypes
  import opened RingSemantics
  import opened CollectivePlan
  import opened Grouping
  import opened Grid
  import opened Collectives

  lemma {:induction false} NobodyThere(ranks: seq<Rank>, nodeOf: map<Rank, Node>, node: Node, n: nat)
    requires n <= |ranks| && node !in NodeOrder(ranks, nodeOf, n)
    ensures OnNode(ranks, nodeOf, node, n) == []
    decreases n
  {
    if n > 0 {
      InsertMember(NodeOrder(ranks, nodeOf, n - 1), Home(nodeOf, ranks[n - 1]), node);
      NobodyThere(ranks, nodeOf, node, n - 1);
    }
  }

  /** Collects the participants in a dictionary keyed by node and lists its entries by ascending node. */
  method BuildGroups(ranks: seq<Rank>, nodeOf: map<Rank, Node>) returns (groups: seq<seq<Rank>>)
    requires forall r :: r in ranks ==> r in nodeOf
    ensures groups == Groups(ranks, nodeOf)
  {
    var byNode: map<Node, seq<Rank>>, nodes: seq<Node> := map[], [];
    for i := 0 to |ranks|
      invariant nodes == NodeOrder(ranks, nodeOf, i)
      invariant forall v :: v in byNode <==> v in nodes
      invariant forall v :: v in byNode ==> byNode[v] == OnNode(ranks, nodeOf, v, i)
    {
      var node := nodeOf[ranks[i]];
      if node !in byNode {
        NobodyThere(ranks, nodeOf, node, i);
        byNode := byNode[node := []];
      }
      byNode := byNode[node := byNode[node] + [ranks[i]]];
      forall v ensures v in Insert(nodes, node) <==> v == node || v in nodes { InsertMember(nodes, node, v); }
      nodes := Insert(nodes, node);
    }
    groups := [];
    for k := 0 to |nodes|
      invariant groups == GroupsOf(ranks, nodeOf, nodes[..k])
    {
      assert nodes[..k + 1][..k] == nodes[..k];
      var node := nodes[k];
      assert node in nodes && node in byNode;
      groups := groups + [byNode[node]];
    }
    assert nodes[..|nodes|] == nodes;
  }

  /** The s-th member of every group. */
  method BuildSlot(groups: seq<seq<Rank>>, local: nat, s: nat) returns (ranks: seq<Rank>)
    requires s < local && Rectangular(groups, local)
    ensures ranks == Slot(groups, s, |groups|)
  {
    ranks := [];
    for g := 0 to |groups|
      invariant ranks == Slot(groups, s, g)
    {
      ranks := ranks + [groups[g][s]];
    }
  }

  lemma {:induction false} SlotMapped(groups: seq<seq<Rank>>, local: nat, s: nat, n: nat, nodeOf: map<Rank, Node>)
    requires s < local && Rectangular(groups, local) && n <= |groups| && Mapped(groups, nodeOf)
    ensures forall r :: r in Slot(groups, s, n) ==> r in nodeOf
    decreases n
  {
    if n > 0 { SlotMapped(groups, local, s, n - 1, nodeOf); }
  }

  ghost predicate Mapped(groups: seq<seq<Rank>>, nodeOf: map<Rank, Node>) {
    forall g :: 0 <= g < |groups| ==> forall r :: r in groups[g] ==> r in nodeOf
  }

  /** Equal groups with mapped members, more than one of each kind. */
  ghost predicate Hierarchy(groups: seq<seq<Rank>>, local: nat, nodeOf: map<Rank, Node>) {
    |groups| >= 2 && local >= 2 && Rectangular(groups, local) && Mapped(groups, nodeOf)
  }

  /** One reduce-scatter per group. */
  method AddLocalScatters(groups: seq<seq<Rank>>, bytes: nat, nodeOf: map<Rank, Node>, local: nat, width: nat)
    returns (phases: seq<TrafficPhase>)
    requires width > 0 && Hierarchy(groups, local, nodeOf) && Peopled(groups)
    requires RingAligned(ReduceScatter, local, bytes, width)
    ensures phases == LocalRsPhases(groups, bytes, nodeOf, |groups|)
  {
    phases := [];
    for index := 0 to |groups|
      invariant phases == LocalRsPhases(groups, bytes, nodeOf, index)
    {
      var phase := BuildRingPhase(LocalRs(index), ReduceScatter, groups[index], bytes, nodeOf, [], width);
      phases := phases + [phase.value];
    }
  }

  /** One all-gather per group, after `predecessors`. */
  method AddLocalGathers(groups: seq<seq<Rank>>, bytes: nat, nodeOf: map<Rank, Node>, predecessors: seq<PhaseId>,
                         local: nat, width: nat)
    returns (phases: seq<TrafficPhase>)
    requires width > 0 && Hierarchy(groups, local, nodeOf) && Peopled(groups)
    requires RingAligned(AllGather, local, bytes, width)
    ensures phases == LocalAgPhases(groups, bytes, nodeOf, predecessors, |groups|)
  {
    phases := [];
    for index := 0 to |groups|
      invariant phases == LocalAgPhases(groups, bytes, nodeOf, predecessors, index)
    {
      var phase := BuildRingPhase(LocalAg(index), AllGather, groups[index], bytes, nodeOf, predecessors, width);
      phases := phases + [phase.value];
    }
  }

  method AddInterPhases(kind: Operation, groups: seq<seq<Rank>>, bytes: nat, nodeOf: map<Rank, Node>, local: nat, width: nat)
    returns (phases: seq<TrafficPhase>)
    requires width > 0 && Hierarchy(groups, local, nodeOf)
    requires IsCollective(kind) && RingAligned(kind, |groups|, bytes, width)
    ensures phases ==
      if kind.AllReduce? then InterArPhases(groups, bytes, nodeOf, local)
      else if kind.AllGather? then InterAgPhases(groups, bytes, nodeOf, local)
      else InterRsPhases(groups, bytes, nodeOf, local)
  {
    phases := [];
    var waits :=
      if kind.AllReduce? then LocalRsIds(|groups|)
      else if kind.AllGather? then []
      else AllLocalRsToIds(|groups|, |groups|);
    for slot := 0 to local
      invariant phases ==
        if kind.AllReduce? then InterArPhases(groups, bytes, nodeOf, slot)
        else if kind.AllGather? then InterAgPhases(groups, bytes, nodeOf, slot)
        else InterRsPhases(groups, bytes, nodeOf, slot)
    {
      var subgroup := BuildSlot(groups, local, slot);
      SlotMapped(groups, local, slot, |groups|, nodeOf);
      var id := if kind.AllReduce? then InterAr(slot) else if kind.AllGather? then InterAg(slot) else InterRs(slot);
      var phase := BuildRingPhase(id, kind, subgroup, bytes, nodeOf, waits, width);
      phases := phases + [phase.value];
    }
  }

  method AddLayoutPhases(groups: seq<seq<Rank>>, bytes: nat, permutation: seq<nat>, input: bool)
    returns (phases: seq<TrafficPhase>)
    ensures phases == if input then InputLayoutPhases(groups, bytes, permutation, |groups|)
                      else LayoutPhases(groups, bytes, permutation, |groups|)
  {
    phases := [];
    for index := 0 to |groups|
      invariant phases == if input then InputLayoutPhases(groups, bytes, permutation, index)
                          else LayoutPhases(groups, bytes, permutation, index)
    {
      var phase :=
        if input then TrafficPhase(InputLayout(index), DataReorder, groups[index], bytes, [], [], permutation)
        else TrafficPhase(Layout(index), DataReorder, groups[index], bytes, [], [LocalAg(index)], permutation);
      phases := phases + [phase];
    }
  }

  method AddScatterPhases(groups: seq<seq<Rank>>, bytes: nat, nodeOf: map<Rank, Node>, reorder: bool, local: nat, width: nat)
    returns (phases: seq<TrafficPhase>)
    requires width > 0 && Hierarchy(groups, local, nodeOf) && Peopled(groups)
    requires RingAligned(ReduceScatter, local, bytes, width)
    ensures phases == AllLocalRsToPhases(groups, bytes, nodeOf, reorder, |groups|)
  {
    hide RingPhase;
    phases := [];
    for index := 0 to |groups|
      invariant phases == AllLocalRsToPhases(groups, bytes, nodeOf, reorder, index)
    {
      var towards: seq<TrafficPhase> := [];
      for destination := 0 to |groups|
        invariant towards == LocalRsToPhases(groups[index], index, bytes, nodeOf, reorder, destination)
      {
        var waits := if reorder then [InputLayout(index)] else [];
        var phase := BuildRingPhase(LocalRsTo(index, destination), ReduceScatter, groups[index], bytes, nodeOf, waits, width);
        towards := towards + [phase.value];
      }
      phases := phases + towards;
    }
  }

  // ----- the whole builder -----

  /** The one divisibility check at the top makes every sub-phase pass its own check. */
  lemma {:induction false} SubPhasesAligned(operation: Operation, ranks: seq<Rank>, groups: seq<seq<Rank>>, local: nat, bytes: nat, width: nat)
    requires width > 0 && RingAligned(operation, |ranks|, bytes, width)
    requires IsGrid(ranks, groups, local) && |groups| >= 2 && local >= 2
    ensures operation.AllReduce? ==>
      && RingAligned(ReduceScatter, local, bytes, width)
      && RingAligned(AllReduce, |groups|, Div(bytes, local), width)
      && RingAligned(AllGather, local, Div(bytes, local), width)
    ensures operation.AllGather? ==>
      && RingAligned(AllGather, |groups|, bytes, width)
      && RingAligned(AllGather, local, |groups| * bytes, width)
    ensures operation.ReduceScatter? ==>
      && RingAligned(ReduceScatter, local, Div(bytes, |groups|), width)
      && RingAligned(ReduceScatter, |groups|, Div(bytes, local), width)
  {
    var n := |groups|;
    GridCount(ranks, groups, local);
    if operation.AllGather? {
      var m := Multiple(bytes, width);
      assert m >= 0;
      assert n * bytes == (n * m) * width;
      MulNonNegative(n, m);
      MulNonNegative(n, bytes);
      Divides(n * m, width);
    } else {
      MulMono(2, n, local);
      AlignedShare(bytes, n, local, width);
      assert n * local == local * n;
      AlignedShare(bytes, local, n, width);
    }
  }

  method BuildPhases(operation: Operation, ranks: seq<Rank>, groups: seq<seq<Rank>>, local: nat, bytes: nat,
                     nodeOf: map<Rank, Node>, width: nat)
    returns (phases: seq<TrafficPhase>)
    requires width > 0 && RingAligned(operation, |ranks|, bytes, width)
    requires IsGrid(ranks, groups, local) && Peopled(groups) && Hierarchy(groups, local, nodeOf)
    ensures phases == PlanPhases(operation, ranks, groups, local, bytes, nodeOf)
  {
    SubPhasesAligned(operation, ranks, groups, local, bytes, width);
    if operation.AllReduce? {
      var scatter := AddLocalScatters(groups, bytes, nodeOf, local, width);
      var inter := AddInterPhases(AllReduce, groups, Div(bytes, local), nodeOf, local, width);
      var gather := AddLocalGathers(groups, Div(bytes, local), nodeOf, InterArIds(local), local, width);
      phases := scatter + inter + gather;
    } else if operation.AllGather? {
      MulNonNegative(|groups|, bytes);
      MulNonNegative(|ranks|, bytes);
      var inter := AddInterPhases(AllGather, groups, bytes, nodeOf, local, width);
      var gather := AddLocalGathers(groups, |groups| * bytes, nodeOf, InterAgIds(local), local, width);
      var layout: seq<TrafficPhase> := [];
      var permutation := Positions(SlotMajor(groups, local), ranks, |ranks|);
      if bytes > 0 && permutation != Identity(|ranks|) {
        layout := AddLayoutPhases(groups, |ranks| * bytes, permutation, false);
      }
      phases := inter + gather + layout;
    } else {
      var grouped := Flatten(groups, |groups|);
      var reorder := grouped != ranks && bytes > 0;
      var layout: seq<TrafficPhase> := [];
      if reorder {
        layout := AddLayoutPhases(groups, bytes, Positions(ranks, grouped, |grouped|), true);
      }
      var scatter := AddScatterPhases(groups, Div(bytes, |groups|), nodeOf, reorder, local, width);
      var inter := AddInterPhases(ReduceScatter, groups, Div(bytes, local), nodeOf, local, width);
      phases := layout + scatter + inter;
    }
  }

  lemma {:induction false} GroupsMapped(ranks: seq<Rank>, nodeOf: map<Rank, Node>)
    requires Participants(ranks, nodeOf) && Balanced(Groups(ranks, nodeOf))
    ensures Mapped(Groups(ranks, nodeOf), nodeOf)
  {
    var groups := Groups(ranks, nodeOf);
    GridOfGroups(ranks, nodeOf);
    forall g, r | 0 <= g < |groups| && r in groups[g] ensures r in nodeOf {
      var s :| 0 <= s < |groups[g]| && groups[g][s] == r;
      PlaceInside(ranks, groups, |groups[0]|, g, s);
    }
  }

  /** `collective_plan`: refuses exactly the requests that `Accepts` rules out, and otherwise returns the plan. */
  method BuildCollectivePlan(operation: Operation, ranks: seq<Rank>, bytes: int, nodeOf: map<Rank, Node>, width: nat)
    returns (result: Result<TrafficPlan>)
    requires width > 0
    ensures result.Ok? <==> Accepts(operation, ranks, bytes, nodeOf, width)
    ensures result.Ok? ==> result.value == Plan(operation, ranks, bytes, nodeOf)
    ensures result.Err? ==> result.error == ConfigurationError
  {
    if ranks == [] || !Distinct(ranks) || exists r :: r in ranks && r !in nodeOf {
      return Err(ConfigurationError);
    }
    if !RingAligned(operation, |ranks|, bytes, width) {
      return Err(ConfigurationError);
    }
    var groups := BuildGroups(ranks, nodeOf);
    GroupsPeopled(ranks, nodeOf);
    if !Rectangular(groups, |groups[0]|) {
      return Err(ConfigurationError);
    }
    var local := |groups[0]|;
    GridOfGroups(ranks, nodeOf);
    GroupsMapped(ranks, nodeOf);
    var phases: seq<TrafficPhase>;
    if |groups| == 1 || local == 1 {
      var phase := BuildRingPhase(Ring, operation, ranks, bytes, nodeOf, [], width);
      phases := [phase.value];
    } else {
      phases := BuildPhases(operation, ranks, groups, local, bytes, nodeOf, width);
    }
    result := Ok(TrafficPlan(operation, ranks, bytes, phases));
  }
}
