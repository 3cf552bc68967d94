/** Compiles a collective into ring phases inside nodes and between nodes. */
module CollectivePlan {
  import opened Common
  import opened TrafficTypes
  import opened RingSemantics

  // ----- participants per node -----

  /** `x` added to an ascending list, unless it is already there. */
  function Insert(nodes: seq<Node>, x: Node): seq<Node> {
    if nodes == [] then [x]
    else if x < nodes[0] then [x] + nodes
    else if x == nodes[0] then nodes
    else [nodes[0]] + Insert(nodes[1..], x)
  }

  /** The nodes that host the first `n` ranks, ascending. */
  function NodeOrder(ranks: seq<Rank>, nodeOf: map<Rank, Node>, n: nat): seq<Node>
    requires n <= |ranks|
  {
    if n == 0 then [] else Insert(NodeOrder(ranks, nodeOf, n - 1), Home(nodeOf, ranks[n - 1]))
  }

  /** Those of the first `n` ranks that live on `node`, in rank order. */
  function OnNode(ranks: seq<Rank>, nodeOf: map<Rank, Node>, node: Node, n: nat): seq<Rank>
    requires n <= |ranks|
  {
    if n == 0 then []
    else
      var earlier := OnNode(ranks, nodeOf, node, n - 1);
      if Home(nodeOf, ranks[n - 1]) == node then earlier + [ranks[n - 1]] else earlier
  }

  function GroupsOf(ranks: seq<Rank>, nodeOf: map<Rank, Node>, nodes: seq<Node>): (groups: seq<seq<Rank>>)
    ensures |groups| == |nodes|
  {
    if nodes == [] then []
    else GroupsOf(ranks, nodeOf, nodes[..|nodes| - 1]) + [OnNode(ranks, nodeOf, nodes[|nodes| - 1], |ranks|)]
  }

  function Groups(ranks: seq<Rank>, nodeOf: map<Rank, Node>): seq<seq<Rank>> {
    GroupsOf(ranks, nodeOf, NodeOrder(ranks, nodeOf, |ranks|))
  }

  /** All groups have `size` members. */
  predicate Rectangular(groups: seq<seq<Rank>>, size: nat) {
    forall g :: 0 <= g < |groups| ==> |groups[g]| == size
  }

  function Member(groups: seq<seq<Rank>>, g: nat, s: nat): Rank {
    if g < |groups| && s < |groups[g]| then groups[g][s] else 0
  }

  /** The s-th member of each of the first `n` groups. */
  function Slot(groups: seq<seq<Rank>>, s: nat, n: nat): (ranks: seq<Rank>)
    ensures |ranks| == n
  {
    if n == 0 then [] else Slot(groups, s, n - 1) + [Member(groups, n - 1, s)]
  }

  /** The first `n` groups, one after the other. */
  function Flatten(groups: seq<seq<Rank>>, n: nat): seq<Rank>
    requires n <= |groups|
  {
    if n == 0 then [] else Flatten(groups, n - 1) + groups[n - 1]
  }

  /** The first `n` slots, one after the other. */
  function SlotMajor(groups: seq<seq<Rank>>, n: nat): seq<Rank> {
    if n == 0 then [] else SlotMajor(groups, n - 1) + Slot(groups, n - 1, |groups|)
  }

  function Position(order: seq<Rank>, r: Rank): nat {
    if r in order then IndexOf(order, r) else 0
  }

  /** Where each of the first `n` of `ranks` stands in `order`. */
  function Positions(order: seq<Rank>, ranks: seq<Rank>, n: nat): (permutation: seq<nat>)
    requires n <= |ranks|
    ensures |permutation| == n
  {
    if n == 0 then [] else Positions(order, ranks, n - 1) + [Position(order, ranks[n - 1])]
  }

  // ----- the phases of each collective -----

  function LocalRsIds(n: nat): (ids: seq<PhaseId>)
    ensures |ids| == n
  {
    if n == 0 then [] else LocalRsIds(n - 1) + [LocalRs(n - 1)]
  }

  function InterArIds(n: nat): (ids: seq<PhaseId>)
    ensures |ids| == n
  {
    if n == 0 then [] else InterArIds(n - 1) + [InterAr(n - 1)]
  }

  function InterAgIds(n: nat): (ids: seq<PhaseId>)
    ensures |ids| == n
  {
    if n == 0 then [] else InterAgIds(n - 1) + [InterAg(n - 1)]
  }

  /** The reduce-scatters of group `g` towards the first `n` destination nodes. */
  function LocalRsToIds(g: nat, n: nat): (ids: seq<PhaseId>)
    ensures |ids| == n
  {
    if n == 0 then [] else LocalRsToIds(g, n - 1) + [LocalRsTo(g, n - 1)]
  }

  /** Those of the first `n` groups, group by group. */
  function AllLocalRsToIds(n: nat, destinations: nat): seq<PhaseId> {
    if n == 0 then [] else AllLocalRsToIds(n - 1, destinations) + LocalRsToIds(n - 1, destinations)
  }

  predicate Peopled(groups: seq<seq<Rank>>) {
    forall g :: 0 <= g < |groups| ==> |groups[g]| >= 1
  }

  function LocalRsPhases(groups: seq<seq<Rank>>, bytes: nat, nodeOf: map<Rank, Node>, n: nat): (phases: seq<TrafficPhase>)
    requires n <= |groups| && Peopled(groups)
  {
    if n == 0 then []
    else LocalRsPhases(groups, bytes, nodeOf, n - 1)
         + [RingPhase(LocalRs(n - 1), ReduceScatter, groups[n - 1], bytes, nodeOf, [])]
  }

  function InterArPhases(groups: seq<seq<Rank>>, bytes: nat, nodeOf: map<Rank, Node>, n: nat): (phases: seq<TrafficPhase>)
    requires |groups| >= 1
  {
    if n == 0 then []
    else InterArPhases(groups, bytes, nodeOf, n - 1)
         + [RingPhase(InterAr(n - 1), AllReduce, Slot(groups, n - 1, |groups|), bytes, nodeOf, LocalRsIds(|groups|))]
  }

  function LocalAgPhases(groups: seq<seq<Rank>>, bytes: nat, nodeOf: map<Rank, Node>,
                         predecessors: seq<PhaseId>, n: nat): (phases: seq<TrafficPhase>)
    requires n <= |groups| && Peopled(groups)
  {
    if n == 0 then []
    else LocalAgPhases(groups, bytes, nodeOf, predecessors, n - 1)
         + [RingPhase(LocalAg(n - 1), AllGather, groups[n - 1], bytes, nodeOf, predecessors)]
  }

  function AllReducePhases(groups: seq<seq<Rank>>, local: nat, bytes: nat, nodeOf: map<Rank, Node>): seq<TrafficPhase>
    requires |groups| >= 1 && Peopled(groups) && local >= 1
  {
    LocalRsPhases(groups, bytes, nodeOf, |groups|)
    + InterArPhases(groups, Div(bytes, local), nodeOf, local)
    + LocalAgPhases(groups, Div(bytes, local), nodeOf, InterArIds(local), |groups|)
  }

  function InterAgPhases(groups: seq<seq<Rank>>, bytes: nat, nodeOf: map<Rank, Node>, n: nat): (phases: seq<TrafficPhase>)
    requires |groups| >= 1
  {
    if n == 0 then []
    else InterAgPhases(groups, bytes, nodeOf, n - 1)
         + [RingPhase(InterAg(n - 1), AllGather, Slot(groups, n - 1, |groups|), bytes, nodeOf, [])]
  }

  function LayoutPhases(groups: seq<seq<Rank>>, bytes: nat, permutation: seq<nat>, n: nat): (phases: seq<TrafficPhase>)
    requires n <= |groups|
  {
    if n == 0 then []
    else LayoutPhases(groups, bytes, permutation, n - 1)
         + [TrafficPhase(Layout(n - 1), DataReorder, groups[n - 1], bytes, [], [LocalAg(n - 1)], permutation)]
  }

  function Identity(n: nat): (permutation: seq<nat>)
    ensures |permutation| == n
  {
    if n == 0 then [] else Identity(n - 1) + [n - 1]
  }

  function AllGatherPhases(ranks: seq<Rank>, groups: seq<seq<Rank>>, local: nat, bytes: nat, nodeOf: map<Rank, Node>)
    : seq<TrafficPhase>
    requires |groups| >= 1 && Peopled(groups)
  {
    MulNonNegative(|groups|, bytes);
    MulNonNegative(|ranks|, bytes);
    var permutation := Positions(SlotMajor(groups, local), ranks, |ranks|);
    InterAgPhases(groups, bytes, nodeOf, local)
    + LocalAgPhases(groups, |groups| * bytes, nodeOf, InterAgIds(local), |groups|)
    + (if bytes > 0 && permutation != Identity(|ranks|)
       then LayoutPhases(groups, |ranks| * bytes, permutation, |groups|) else [])
  }

  function InputLayoutPhases(groups: seq<seq<Rank>>, bytes: nat, permutation: seq<nat>, n: nat): (phases: seq<TrafficPhase>)
    requires n <= |groups|
  {
    if n == 0 then []
    else InputLayoutPhases(groups, bytes, permutation, n - 1)
         + [TrafficPhase(InputLayout(n - 1), DataReorder, groups[n - 1], bytes, [], [], permutation)]
  }

  function LocalRsToPhases(group: seq<Rank>, g: nat, bytes: nat, nodeOf: map<Rank, Node>, reorder: bool, n: nat)
    : (phases: seq<TrafficPhase>)
    requires |group| >= 1
  {
    if n == 0 then []
    else LocalRsToPhases(group, g, bytes, nodeOf, reorder, n - 1)
         + [RingPhase(LocalRsTo(g, n - 1), ReduceScatter, group, bytes, nodeOf,
                      if reorder then [InputLayout(g)] else [])]
  }

  function AllLocalRsToPhases(groups: seq<seq<Rank>>, bytes: nat, nodeOf: map<Rank, Node>, reorder: bool, n: nat)
    : (phases: seq<TrafficPhase>)
    requires n <= |groups| && Peopled(groups)
  {
    if n == 0 then []
    else AllLocalRsToPhases(groups, bytes, nodeOf, reorder, n - 1)
         + LocalRsToPhases(groups[n - 1], n - 1, bytes, nodeOf, reorder, |groups|)
  }

  function InterRsPhases(groups: seq<seq<Rank>>, bytes: nat, nodeOf: map<Rank, Node>, n: nat): (phases: seq<TrafficPhase>)
    requires |groups| >= 1
  {
    if n == 0 then []
    else InterRsPhases(groups, bytes, nodeOf, n - 1)
         + [RingPhase(InterRs(n - 1), ReduceScatter, Slot(groups, n - 1, |groups|), bytes, nodeOf,
                      AllLocalRsToIds(|groups|, |groups|))]
  }

  function ReduceScatterPhases(ranks: seq<Rank>, groups: seq<seq<Rank>>, local: nat, bytes: nat, nodeOf: map<Rank, Node>)
    : seq<TrafficPhase>
    requires |groups| >= 1 && Peopled(groups) && local >= 1
  {
    var grouped := Flatten(groups, |groups|);
    var reorder := grouped != ranks && bytes > 0;
    (if reorder then InputLayoutPhases(groups, bytes, Positions(ranks, grouped, |grouped|), |groups|) else [])
    + AllLocalRsToPhases(groups, Div(bytes, |groups|), nodeOf, reorder, |groups|)
    + InterRsPhases(groups, Div(bytes, local), nodeOf, local)
  }

  /** One node, or one participant per node, needs a single ring. */
  predicate Flat(groups: seq<seq<Rank>>, local: nat) {
    |groups| == 1 || local == 1
  }

  function PlanPhases(operation: Operation, ranks: seq<Rank>, groups: seq<seq<Rank>>, local: nat, bytes: nat,
                      nodeOf: map<Rank, Node>): seq<TrafficPhase>
    requires |ranks| >= 1 && |groups| >= 1 && Peopled(groups) && local >= 1
  {
    if Flat(groups, local) then [RingPhase(Ring, operation, ranks, bytes, nodeOf, [])]
    else if operation.AllReduce? then AllReducePhases(groups, local, bytes, nodeOf)
    else if operation.AllGather? then AllGatherPhases(ranks, groups, local, bytes, nodeOf)
    else ReduceScatterPhases(ranks, groups, local, bytes, nodeOf)
  }
}
