/** `all_to_all_plan`: expected traffic between ranks, relayed inside the source node and sent node to node. */
module AllToAll {
  import opened Common
  import opened TrafficTypes
  import opened CollectivePlan
  import opened Collectives
  import opened Grouping
  import opened Grid
  import opened WireBytes
  import opened ListSchedule
  import opened PhaseSchedule
  import opened PlanSchedule
  import opened PhaseBilling
  import PlanService

  /** Each rank sends `size` bytes, the share `fraction` of it inside its node; the first remote node weighs `imbalance`. */
  datatype Demand = Demand(size: nat, fraction: real, imbalance: real, redistribute: bool)

  /** The participants laid out over ascending nodes. */
  datatype Placement = Placement(ranks: seq<Rank>, nodes: seq<Node>, groups: seq<seq<Rank>>, local: nat)

  ghost predicate ValidPlacement(l: Placement) {
    && l.ranks != [] && IsGrid(l.ranks, l.groups, l.local)
    && |l.nodes| == |l.groups| && Ascending(l.nodes)
  }

  predicate ValidDemand(d: Demand, nodes: nat) {
    0.0 <= d.fraction <= 1.0 && d.imbalance >= 1.0 && (nodes == 1 ==> d.fraction == 1.0)
  }

  // ----- volumes -----

  /** The first remote node of `g` is node 0, or node 1 for node 0 itself. */
  function Weight(d: Demand, g: nat, h: nat): real {
    if h == (if g == 0 then 1 else 0) then d.imbalance else 1.0
  }

  /** A sum over the nodes other than `g` among the first `n`. */
  function Remote(term: nat -> real, g: nat, n: nat): real {
    if n == 0 then 0.0 else Remote(term, g, n - 1) + (if n - 1 == g then 0.0 else term(n - 1))
  }

  function Weights(d: Demand, g: nat): nat -> real {
    (h: nat) => Weight(d, g, h)
  }

  function WeightSum(d: Demand, g: nat, n: nat): real {
    Remote(Weights(d, g), g, n)
  }

  lemma {:induction false} WeightsPositive(d: Demand, g: nat, n: nat)
    requires d.imbalance >= 1.0
    ensures WeightSum(d, g, n) >= 0.0 && (n >= 2 || (n == 1 && g != 0) ==> WeightSum(d, g, n) >= 1.0)
    decreases n
  {
    if n > 0 { WeightsPositive(d, g, n - 1); }
  }

  /** What a rank of node `g` sends to one rank of node `h`. */
  function PerTarget(d: Demand, l: Placement, g: nat, h: nat): real
    requires |l.groups| >= 2 && l.local >= 1 && d.imbalance >= 1.0
  {
    WeightsPositive(d, g, |l.groups|);
    d.size as real * (1.0 - d.fraction) * Weight(d, g, h) / WeightSum(d, g, |l.groups|) / l.local as real
  }

  // ----- messages -----

  function NodeAt(l: Placement, g: nat): Node {
    if g < |l.nodes| then l.nodes[g] else 0
  }

  /** What a rank sends to one rank of its own node. */
  function PerNeighbour(d: Demand, l: Placement): real
    requires l.local >= 1
  {
    d.size as real * d.fraction / l.local as real
  }

  /** From `source` to the first `n` members of its group, itself excepted. */
  function Direct(d: Demand, l: Placement, g: nat, source: Rank, n: nat): Round
    requires l.local >= 1
  {
    if n == 0 then []
    else
      var earlier, target := Direct(d, l, g, source, n - 1), Member(l.groups, g, n - 1);
      if source == target then earlier
      else earlier + [Transmission(source, target, PerNeighbour(d, l), NodeAt(l, g), NodeAt(l, g), None)]
  }

  /** From `source` to the ranks that relay towards the first `n` slots of node `h`. */
  function Relays(d: Demand, l: Placement, g: nat, h: nat, source: Rank, n: nat): Round
    requires |l.groups| >= 2 && l.local >= 1 && d.imbalance >= 1.0
  {
    if n == 0 then []
    else
      var earlier, relay := Relays(d, l, g, h, source, n - 1), Member(l.groups, g, n - 1);
      if relay == source then earlier
      else earlier + [Transmission(source, relay, PerTarget(d, l, g, h), NodeAt(l, g), NodeAt(l, g), None)]
  }

  function AllRelays(d: Demand, l: Placement, g: nat, source: Rank, n: nat): Round
    requires l.local >= 1 && d.imbalance >= 1.0
  {
    if n == 0 || |l.groups| < 2 then []
    else AllRelays(d, l, g, source, n - 1) + (if n - 1 == g then [] else Relays(d, l, g, n - 1, source, l.local))
  }

  /** What the first `n` members of group `g` send inside their node. */
  function LocalMessages(d: Demand, l: Placement, g: nat, n: nat): Round
    requires l.local >= 1 && d.imbalance >= 1.0
  {
    if n == 0 then []
    else
      var source := Member(l.groups, g, n - 1);
      LocalMessages(d, l, g, n - 1) + Direct(d, l, g, source, l.local) + AllRelays(d, l, g, source, |l.groups|)
  }

  /** The relays' messages for one source: slot by slot, to the peer or to the first rank of the node. */
  function Crossing(d: Demand, l: Placement, g: nat, h: nat, n: nat): (messages: Round)
    requires |l.groups| >= 2 && l.local >= 1 && d.imbalance >= 1.0
  {
    if n == 0 then []
    else Crossing(d, l, g, h, n - 1)
         + [Transmission(Member(l.groups, g, n - 1), Member(l.groups, h, if d.redistribute then 0 else n - 1),
                         PerTarget(d, l, g, h), NodeAt(l, g), NodeAt(l, h), None)]
  }

  /** All messages from node `g` to node `h` for its first `n` sources. */
  function InterMessages(d: Demand, l: Placement, g: nat, h: nat, n: nat): Round
    requires |l.groups| >= 2 && l.local >= 1 && d.imbalance >= 1.0
  {
    if n == 0 then [] else InterMessages(d, l, g, h, n - 1) + Crossing(d, l, g, h, l.local)
  }

  /** From the first rank of node `h` on to the others, for one source of node `g`. */
  function Spreading(d: Demand, l: Placement, g: nat, h: nat, n: nat): Round
    requires |l.groups| >= 2 && l.local >= 1 && d.imbalance >= 1.0
  {
    if n == 0 then []
    else
      var earlier, receiver, target := Spreading(d, l, g, h, n - 1), Member(l.groups, h, 0), Member(l.groups, h, n - 1);
      if receiver == target then earlier
      else earlier + [Transmission(receiver, target, PerTarget(d, l, g, h), NodeAt(l, h), NodeAt(l, h), None)]
  }

  function HomeIndex(l: Placement, r: Rank, n: nat): nat
    requires n <= |l.groups|
  {
    if n == 0 then 0 else if r in l.groups[n - 1] then n - 1 else HomeIndex(l, r, n - 1)
  }

  /** What arrives at node `h` from the first `n` ranks and has to be spread there. */
  function TargetMessages(d: Demand, l: Placement, h: nat, n: nat): Round
    requires |l.groups| >= 2 && l.local >= 1 && d.imbalance >= 1.0 && n <= |l.ranks|
  {
    if n == 0 then []
    else
      var g := HomeIndex(l, l.ranks[n - 1], |l.groups|);
      TargetMessages(d, l, h, n - 1) + (if g == h then [] else Spreading(d, l, g, h, l.local))
  }

  // ----- phases -----

  function SourcePhases(d: Demand, l: Placement, n: nat): seq<TrafficPhase>
    requires l.local >= 1 && d.imbalance >= 1.0 && n <= |l.groups|
  {
    if n == 0 then []
    else SourcePhases(d, l, n - 1)
         + [TrafficPhase(SourceLocal(NodeAt(l, n - 1)), AllToAll, l.groups[n - 1], d.size,
                         [LocalMessages(d, l, n - 1, l.local)], [], [])]
  }

  function InterPhase(d: Demand, l: Placement, g: nat, h: nat): TrafficPhase
    requires |l.groups| >= 2 && l.local >= 1 && d.imbalance >= 1.0 && g < |l.groups| && h < |l.groups|
  {
    TrafficPhase(Inter(NodeAt(l, g), NodeAt(l, h)), AllToAll, l.groups[g] + l.groups[h], d.size,
                 [InterMessages(d, l, g, h, l.local)], [SourceLocal(NodeAt(l, g))], [])
  }

  /** From node `g` to the first `n` nodes. */
  function InterFrom(d: Demand, l: Placement, g: nat, n: nat): seq<TrafficPhase>
    requires |l.groups| >= 2 && l.local >= 1 && d.imbalance >= 1.0 && g < |l.groups| && n <= |l.groups|
  {
    if n == 0 then []
    else if n - 1 == g then InterFrom(d, l, g, n - 1)
    else InterFrom(d, l, g, n - 1) + [InterPhase(d, l, g, n - 1)]
  }

  /** Ordered by source node, then target node. */
  function InterPhases(d: Demand, l: Placement, n: nat): seq<TrafficPhase>
    requires |l.groups| >= 2 && l.local >= 1 && d.imbalance >= 1.0 && n <= |l.groups|
  {
    if n == 0 then [] else InterPhases(d, l, n - 1) + InterFrom(d, l, n - 1, |l.groups|)
  }

  function InterIds(l: Placement, h: nat, n: nat): seq<PhaseId> {
    if n == 0 then []
    else if n - 1 == h then InterIds(l, h, n - 1)
    else InterIds(l, h, n - 1) + [Inter(NodeAt(l, n - 1), NodeAt(l, h))]
  }

  function SpreadPhases(d: Demand, l: Placement, n: nat): seq<TrafficPhase>
    requires l.local >= 1 && d.imbalance >= 1.0 && n <= |l.groups|
  {
    if n == 0 then []
    else SpreadPhases(d, l, n - 1)
         + [TrafficPhase(DestinationLocal(NodeAt(l, n - 1)), AllToAll, l.groups[n - 1], d.size,
                         [if |l.groups| >= 2 then TargetMessages(d, l, n - 1, |l.ranks|) else []],
                         InterIds(l, n - 1, |l.groups|), [])]
  }

  function AllToAllPhases(d: Demand, l: Placement): seq<TrafficPhase>
    requires l.local >= 1 && d.imbalance >= 1.0
  {
    SourcePhases(d, l, |l.groups|)
    + (if |l.groups| >= 2 then InterPhases(d, l, |l.groups|) else [])
    + (if d.redistribute then SpreadPhases(d, l, |l.groups|) else [])
  }

  // ----- what is sent between nodes -----

  lemma {:induction false} TimesIsProduct(n: nat, x: real)
    ensures Times(n, x) == n as real * x
    decreases n
  {
    if n > 0 {
      TimesIsProduct(n - 1, x);
      assert n as real == (n - 1) as real + 1.0;
    }
  }

  lemma {:induction false} RoundsTogether(a: Round, b: Round, all: Round)
    requires all == a + b
    ensures RoundBytes(all) == RoundBytes(a) + RoundBytes(b)
    decreases |b|
  {
    if b == [] {
      assert all == a;
    } else {
      var shorter := a + b[..|b| - 1];
      RoundsTogether(a, b[..|b| - 1], shorter);
      assert all[..|all| - 1] == shorter;
    }
  }

  lemma {:induction false} CrossingBytes(d: Demand, l: Placement, g: nat, h: nat, n: nat, each: real)
    requires |l.groups| >= 2 && l.local >= 1 && d.imbalance >= 1.0 && each == PerTarget(d, l, g, h)
    ensures RoundBytes(Crossing(d, l, g, h, n)) == Times(n, each)
    decreases n
  {
    if n > 0 {
      CrossingBytes(d, l, g, h, n - 1, each);
      var all := Crossing(d, l, g, h, n);
      AppendMessage(Crossing(d, l, g, h, n - 1), all[|all| - 1]);
    }
  }

  lemma {:induction false} InterMessagesBytes(d: Demand, l: Placement, g: nat, h: nat, n: nat, each: real)
    requires |l.groups| >= 2 && l.local >= 1 && d.imbalance >= 1.0 && each == PerTarget(d, l, g, h)
    ensures RoundBytes(InterMessages(d, l, g, h, n)) == Times(n, Times(l.local, each))
    decreases n
  {
    if n > 0 {
      InterMessagesBytes(d, l, g, h, n - 1, each);
      CrossingBytes(d, l, g, h, l.local, each);
      RoundsTogether(InterMessages(d, l, g, h, n - 1), Crossing(d, l, g, h, l.local), InterMessages(d, l, g, h, n));
    }
  }

  function PerTargets(d: Demand, l: Placement, g: nat): nat -> real
    requires |l.groups| >= 2 && l.local >= 1 && d.imbalance >= 1.0
  {
    (h: nat) => PerTarget(d, l, g, h)
  }

  lemma {:induction false} Divided(a: real, s: real, k: real)
    requires s > 0.0 && k > 0.0
    ensures a / s / k * (k * s) == a
  {
  }

  lemma {:induction false} Distribute(a: real, b: real, c: real)
    ensures (a + b) * c == a * c + b * c && c * (a + b) == c * a + c * b
  {
  }

  lemma {:induction false} RemoteScaled(a: nat -> real, b: nat -> real, g: nat, n: nat, x: real, y: real)
    requires forall h :: a(h) * x == y * b(h)
    ensures Remote(a, g, n) * x == y * Remote(b, g, n)
    decreases n
  {
    if n > 0 && n - 1 != g {
      RemoteScaled(a, b, g, n - 1, x, y);
      Distribute(Remote(a, g, n - 1), a(n - 1), x);
      Distribute(Remote(b, g, n - 1), b(n - 1), y);
    } else if n > 0 {
      RemoteScaled(a, b, g, n - 1, x, y);
    }
  }

  lemma {:induction false} Cancel(x: real, k: real, w: real, a: real)
    requires w > 0.0 && x * (k * w) == a * w
    ensures k * x == a
  {
    assert (k * x - a) * w == 0.0;
  }

  lemma {:induction false} PerTargetScaled(d: Demand, l: Placement, g: nat, h: nat, amount: real, weights: real, k: real)
    requires |l.groups| >= 2 && l.local >= 1 && d.imbalance >= 1.0
    requires amount == d.size as real * (1.0 - d.fraction) && weights == WeightSum(d, g, |l.groups|) && k == l.local as real
    ensures PerTarget(d, l, g, h) * (k * weights) == amount * Weight(d, g, h)
  {
    WeightsPositive(d, g, |l.groups|);
    Divided(amount * Weight(d, g, h), weights, k);
  }

  lemma {:induction false} PayloadFrom(per: nat -> real, weight: nat -> real, g: nat, n: nat, k: real, amount: real)
    requires Remote(weight, g, n) > 0.0
    requires forall h :: per(h) * (k * Remote(weight, g, n)) == amount * weight(h)
    ensures k * Remote(per, g, n) == amount
  {
    RemoteScaled(per, weight, g, n, k * Remote(weight, g, n), amount);
    Cancel(Remote(per, g, n), k, Remote(weight, g, n), amount);
  }

  lemma {:induction false} PerTargetsScaled(d: Demand, l: Placement, g: nat, per: nat -> real, weight: nat -> real, amount: real, k: real, h: nat)
    requires |l.groups| >= 2 && l.local >= 1 && d.imbalance >= 1.0
    requires amount == d.size as real * (1.0 - d.fraction) && k == l.local as real
    requires per == PerTargets(d, l, g) && weight == Weights(d, g)
    ensures per(h) * (k * Remote(weight, g, |l.groups|)) == amount * weight(h)
  {
    PerTargetScaled(d, l, g, h, amount, WeightSum(d, g, |l.groups|), k);
  }

  /** A rank spends exactly its remote payload on the ranks of the other nodes. */
  lemma {:induction false} RemotePayload(d: Demand, l: Placement, g: nat, per: nat -> real, weight: nat -> real, amount: real, k: real)
    requires |l.groups| >= 2 && l.local >= 1 && d.imbalance >= 1.0
    requires amount == d.size as real * (1.0 - d.fraction) && k == l.local as real
    requires per == PerTargets(d, l, g) && weight == Weights(d, g)
    ensures k * Remote(per, g, |l.groups|) == amount
  {
    WeightsPositive(d, g, |l.groups|);
    forall h ensures per(h) * (k * Remote(weight, g, |l.groups|)) == amount * weight(h) {
      PerTargetsScaled(d, l, g, per, weight, amount, k, h);
    }
    PayloadFrom(per, weight, g, |l.groups|, k, amount);
  }

  /** What all of node `g` sends to node `h`. */
  function NodeBytes(per: nat -> real, local: nat): nat -> real {
    (h: nat) => Times(local, Times(local, per(h)))
  }

  lemma {:induction false} SingleRound(phase: TrafficPhase, messages: Round)
    requires phase.rounds == [messages]
    ensures PhaseBytes(phase) == RoundBytes(messages)
  {
    AppendRound([], messages);
    assert [] + [messages] == [messages];
  }

  lemma {:induction false} InterPhaseBytes(d: Demand, l: Placement, g: nat, h: nat, earlier: seq<TrafficPhase>, all: seq<TrafficPhase>)
    requires |l.groups| >= 2 && l.local >= 1 && d.imbalance >= 1.0 && g < |l.groups| && h < |l.groups|
    requires all == earlier + [InterPhase(d, l, g, h)]
    ensures PlanBytes(all) == PlanBytes(earlier) + Times(l.local, Times(l.local, PerTarget(d, l, g, h)))
  {
    var phase := all[|earlier|];
    AppendPhase(earlier, phase);
    SingleRound(phase, InterMessages(d, l, g, h, l.local));
    InterMessagesBytes(d, l, g, h, l.local, PerTarget(d, l, g, h));
  }

  lemma {:induction false} InterFromBytes(d: Demand, l: Placement, g: nat, n: nat, per: nat -> real)
    requires |l.groups| >= 2 && l.local >= 1 && d.imbalance >= 1.0 && g < |l.groups| && n <= |l.groups|
    requires per == PerTargets(d, l, g)
    ensures PlanBytes(InterFrom(d, l, g, n)) == Remote(NodeBytes(per, l.local), g, n)
    decreases n
  {
    hide InterMessages;
    if n > 0 {
      InterFromBytes(d, l, g, n - 1, per);
      if n - 1 != g { InterPhaseBytes(d, l, g, n - 1, InterFrom(d, l, g, n - 1), InterFrom(d, l, g, n)); }
    }
  }

  lemma {:induction false} TimesOfSum(n: nat, x: real, y: real)
    ensures Times(n, x + y) == Times(n, x) + Times(n, y)
    decreases n
  {
    if n > 0 { TimesOfSum(n - 1, x, y); }
  }

  lemma {:induction false} TimesZero(n: nat)
    ensures Times(n, 0.0) == 0.0
    decreases n
  {
    if n > 0 { TimesZero(n - 1); }
  }

  lemma {:induction false} SumOfTimes(a: nat, b: nat, x: real)
    ensures Times(a + b, x) == Times(a, x) + Times(b, x)
    decreases b
  {
    if b > 0 { SumOfTimes(a, b - 1, x); }
  }

  lemma {:induction false} TimesTimes(n: nat, k: nat, x: real, nk: nat)
    requires nk == n * k
    ensures Times(n, Times(k, x)) == Times(nk, x)
    decreases n
  {
    if n > 0 {
      assert nk - k == (n - 1) * k;
      MulNonNegative(n - 1, k);
      TimesTimes(n - 1, k, x, nk - k);
      SumOfTimes(nk - k, k, x);
    }
  }

  lemma {:induction false} NodeBytesFactor(per: nat -> real, local: nat, g: nat, n: nat)
    ensures Remote(NodeBytes(per, local), g, n) == Times(local, Times(local, Remote(per, g, n)))
    decreases n
  {
    if n == 0 {
      TimesZero(local);
    } else {
      NodeBytesFactor(per, local, g, n - 1);
      if n - 1 != g {
        TimesOfSum(local, Remote(per, g, n - 1), per(n - 1));
        TimesOfSum(local, Times(local, Remote(per, g, n - 1)), Times(local, per(n - 1)));
      }
    }
  }

  lemma {:induction false} InterFromPayload(d: Demand, l: Placement, g: nat, amount: real, per: nat -> real)
    requires |l.groups| >= 2 && l.local >= 1 && d.imbalance >= 1.0 && g < |l.groups|
    requires per == PerTargets(d, l, g) && amount == Times(l.local, Remote(per, g, |l.groups|))
    ensures PlanBytes(InterFrom(d, l, g, |l.groups|)) == Times(l.local, amount)
  {
    InterFromBytes(d, l, g, |l.groups|, per);
    NodeBytesFactor(per, l.local, g, |l.groups|);
  }

  lemma {:induction false} RemoteAmount(d: Demand, l: Placement, g: nat, amount: real)
    requires |l.groups| >= 2 && l.local >= 1 && d.imbalance >= 1.0 && amount == d.size as real * (1.0 - d.fraction)
    ensures amount == Times(l.local, Remote(PerTargets(d, l, g), g, |l.groups|))
  {
    var per := PerTargets(d, l, g);
    RemotePayload(d, l, g, per, Weights(d, g), amount, l.local as real);
    TimesIsProduct(l.local, Remote(per, g, |l.groups|));
  }

  lemma {:induction false} InterPhasesBytes(d: Demand, l: Placement, n: nat, amount: real)
    requires |l.groups| >= 2 && l.local >= 1 && d.imbalance >= 1.0 && n <= |l.groups|
    requires amount == d.size as real * (1.0 - d.fraction)
    ensures PlanBytes(InterPhases(d, l, n)) == Times(n, Times(l.local, amount))
    decreases n
  {
    if n > 0 {
      InterPhasesBytes(d, l, n - 1, amount);
      RemoteAmount(d, l, n - 1, amount);
      InterFromPayload(d, l, n - 1, amount, PerTargets(d, l, n - 1));
      BytesOfConcat(InterPhases(d, l, n - 1), InterFrom(d, l, n - 1, |l.groups|));
    }
  }

  /** Between nodes exactly the remote part of every rank's payload is sent, whatever the imbalance. */
  lemma {:induction false} InterVolume(d: Demand, l: Placement, amount: real)
    requires ValidPlacement(l) && |l.groups| >= 2 && d.imbalance >= 1.0 && amount == d.size as real * (1.0 - d.fraction)
    ensures PlanBytes(InterPhases(d, l, |l.groups|)) == Times(|l.ranks|, amount)
  {
    InterPhasesBytes(d, l, |l.groups|, amount);
    GridCount(l.ranks, l.groups, l.local);
    TimesTimes(|l.groups|, l.local, amount, |l.ranks|);
  }

  // ----- dependency order -----

  /** `v` is one of the first `n` nodes. */
  predicate Among(l: Placement, v: Node, n: nat) {
    n > 0 && (NodeAt(l, n - 1) == v || Among(l, v, n - 1))
  }

  lemma {:induction false} NotAmong(l: Placement, v: Node, n: nat)
    requires ValidPlacement(l) && n < |l.nodes| && v >= NodeAt(l, n)
    ensures !Among(l, v, n)
    decreases n
  {
    if n > 0 { NotAmong(l, v, n - 1); }
  }

  lemma {:induction false} IsAmong(l: Placement, g: nat, n: nat)
    requires g < n
    ensures Among(l, NodeAt(l, g), n)
    decreases n
  {
    if g < n - 1 { IsAmong(l, g, n - 1); }
  }

  lemma {:induction false} SourceOrderly(d: Demand, l: Placement, n: nat, phases: seq<TrafficPhase>)
    requires ValidPlacement(l) && d.imbalance >= 1.0 && n <= |l.groups| && phases == SourcePhases(d, l, n)
    ensures Orderly(phases, {})
    ensures forall id :: id in IdsUpTo(phases, |phases|) <==> id.SourceLocal? && Among(l, id.node, n)
    decreases n
  {
    if n > 0 {
      var earlier := SourcePhases(d, l, n - 1);
      SourceOrderly(d, l, n - 1, earlier);
      NotAmong(l, NodeAt(l, n - 1), n - 1);
      PlanService.OneMore(earlier, phases, phases[|earlier|], {});
    }
  }

  lemma {:induction false} InterFromOrderly(d: Demand, l: Placement, g: nat, n: nat, phases: seq<TrafficPhase>, known: set<PhaseId>)
    requires ValidPlacement(l) && |l.groups| >= 2 && d.imbalance >= 1.0 && g < |l.groups| && n <= |l.groups|
    requires phases == InterFrom(d, l, g, n) && SourceLocal(NodeAt(l, g)) in known
    requires forall id :: id in known && id.Inter? ==> id.sourceNode != NodeAt(l, g)
    ensures Orderly(phases, known)
    ensures forall id :: id in IdsUpTo(phases, |phases|) <==>
              id.Inter? && id.sourceNode == NodeAt(l, g) && Among(l, id.targetNode, n) && id.targetNode != id.sourceNode
    decreases n
  {
    if n > 0 {
      var earlier := InterFrom(d, l, g, n - 1);
      InterFromOrderly(d, l, g, n - 1, earlier, known);
      NotAmong(l, NodeAt(l, n - 1), n - 1);
      if n - 1 != g { PlanService.OneMore(earlier, phases, phases[|earlier|], known); }
    }
  }

  lemma {:induction false} InterOrderly(d: Demand, l: Placement, n: nat, phases: seq<TrafficPhase>, known: set<PhaseId>)
    requires ValidPlacement(l) && |l.groups| >= 2 && d.imbalance >= 1.0 && n <= |l.groups|
    requires phases == InterPhases(d, l, n)
    requires forall v :: Among(l, v, |l.nodes|) ==> SourceLocal(v) in known
    requires forall id :: id in known ==> id.SourceLocal?
    ensures Orderly(phases, known)
    ensures forall id :: id in IdsUpTo(phases, |phases|) <==>
              id.Inter? && Among(l, id.sourceNode, n) && Among(l, id.targetNode, |l.nodes|) && id.targetNode != id.sourceNode
    decreases n
  {
    hide InterFrom;
    if n > 0 {
      IsAmong(l, n - 1, |l.nodes|);
      var earlier, more := InterPhases(d, l, n - 1), InterFrom(d, l, n - 1, |l.groups|);
      InterOrderly(d, l, n - 1, earlier, known);
      NotAmong(l, NodeAt(l, n - 1), n - 1);
      var wider := known + IdsUpTo(earlier, |earlier|);
      InterFromOrderly(d, l, n - 1, |l.groups|, more, wider);
      Followed(earlier, more, phases, known, wider);
    }
  }

  lemma {:induction false} InterIdsAre(l: Placement, h: nat, n: nat, id: PhaseId)
    requires ValidPlacement(l) && n <= |l.nodes| && h < |l.nodes| && id in InterIds(l, h, n)
    ensures id.Inter? && Among(l, id.sourceNode, |l.nodes|) && Among(l, id.targetNode, |l.nodes|) && id.targetNode != id.sourceNode
    decreases n
  {
    if n - 1 == h || id in InterIds(l, h, n - 1) {
      InterIdsAre(l, h, n - 1, id);
    } else {
      IsAmong(l, n - 1, |l.nodes|);
      IsAmong(l, h, |l.nodes|);
    }
  }

  ghost predicate AllIn(ids: seq<PhaseId>, known: set<PhaseId>) {
    forall id :: id in ids ==> id in known
  }

  lemma {:induction false} InterIdsKnown(l: Placement, h: nat, known: set<PhaseId>)
    requires ValidPlacement(l) && h < |l.nodes|
    requires forall id: PhaseId :: id.Inter? && Among(l, id.sourceNode, |l.nodes|) && Among(l, id.targetNode, |l.nodes|) && id.targetNode != id.sourceNode ==> id in known
    ensures AllIn(InterIds(l, h, |l.groups|), known)
  {
    forall id | id in InterIds(l, h, |l.groups|) ensures id in known { InterIdsAre(l, h, |l.groups|, id); }
  }

  ghost predicate SpreadAt(l: Placement, phases: seq<TrafficPhase>, k: nat) {
    k < |phases| && k < |l.nodes| && phases[k].id == DestinationLocal(l.nodes[k]) && phases[k].predecessors == InterIds(l, k, |l.groups|)
  }

  lemma {:induction false} SpreadShape(d: Demand, l: Placement, n: nat)
    requires ValidPlacement(l) && d.imbalance >= 1.0 && n <= |l.groups|
    ensures |SpreadPhases(d, l, n)| == n && forall k :: 0 <= k < n ==> SpreadAt(l, SpreadPhases(d, l, n), k)
    decreases n
  {
    hide TargetMessages;
    if n > 0 {
      SpreadShape(d, l, n - 1);
      forall k | 0 <= k < n ensures SpreadAt(l, SpreadPhases(d, l, n), k) {
        assert k < n - 1 ==> SpreadAt(l, SpreadPhases(d, l, n - 1), k);
      }
    }
  }

  lemma {:induction false} SpreadIds(l: Placement, phases: seq<TrafficPhase>, n: nat, id: PhaseId)
    requires ValidPlacement(l) && n <= |phases| && n <= |l.nodes|
    requires (forall k :: 0 <= k < |phases| ==> SpreadAt(l, phases, k)) && id in IdsUpTo(phases, n)
    ensures id.DestinationLocal? && Among(l, id.node, n)
    decreases n
  {
    assert SpreadAt(l, phases, n - 1);
    if id != phases[n - 1].id { SpreadIds(l, phases, n - 1, id); }
  }

  lemma {:induction false} SpreadOrderly(l: Placement, phases: seq<TrafficPhase>, known: set<PhaseId>)
    requires ValidPlacement(l) && forall k :: 0 <= k < |phases| ==> SpreadAt(l, phases, k)
    requires forall h :: 0 <= h < |l.nodes| ==> AllIn(InterIds(l, h, |l.groups|), known)
    requires forall id :: id in known ==> !id.DestinationLocal?
    ensures Orderly(phases, known)
  {
    forall k | 0 <= k < |phases| ensures OrderlyAt(phases, known, k) {
      assert SpreadAt(l, phases, k) && AllIn(InterIds(l, k, |l.groups|), known);
      if phases[k].id in IdsUpTo(phases, k) { SpreadIds(l, phases, k, phases[k].id); }
      NotAmong(l, l.nodes[k], k);
    }
  }

  /** Sources first, then the transfers between nodes, then the spreading inside the targets. */
  lemma {:induction false} AllToAllOrderly(d: Demand, l: Placement, phases: seq<TrafficPhase>)
    requires ValidPlacement(l) && d.imbalance >= 1.0 && phases == AllToAllPhases(d, l)
    ensures Orderly(phases, {})
  {
    var n := |l.groups|;
    var a := SourcePhases(d, l, n);
    var b := if n >= 2 then InterPhases(d, l, n) else [];
    var c := if d.redistribute then SpreadPhases(d, l, n) else [];
    SourceOrderly(d, l, n, a);
    if n >= 2 { InterOrderly(d, l, n, b, IdsUpTo(a, |a|)); }
    var known := IdsUpTo(a, |a|) + IdsUpTo(b, |b|);
    if d.redistribute {
      forall h | 0 <= h < |l.nodes| ensures AllIn(InterIds(l, h, n), known) { InterIdsKnown(l, h, known); }
      SpreadShape(d, l, n);
      SpreadOrderly(l, c, known);
    }
    Staged(a, b, c, phases);
  }

  // ----- no message is negative -----

  lemma {:induction false} ShareNonNegative(size: nat, fraction: real, weight: real, sum: real, local: nat)
    requires 0.0 <= fraction <= 1.0 && weight >= 1.0 && sum >= 1.0 && local >= 1
    ensures size as real * (1.0 - fraction) * weight / sum / local as real >= 0.0
  {
    assert size as real * (1.0 - fraction) >= 0.0;
    assert size as real * (1.0 - fraction) * weight >= 0.0;
    assert size as real * (1.0 - fraction) * weight / sum >= 0.0;
  }

  lemma {:induction false} PerTargetNonNegative(d: Demand, l: Placement, g: nat, h: nat)
    requires |l.groups| >= 2 && l.local >= 1 && d.imbalance >= 1.0 && 0.0 <= d.fraction <= 1.0
    ensures PerTarget(d, l, g, h) >= 0.0
  {
    WeightsPositive(d, g, |l.groups|);
    ShareNonNegative(d.size, d.fraction, Weight(d, g, h), WeightSum(d, g, |l.groups|), l.local);
  }

  lemma {:induction false} DirectBillable(d: Demand, l: Placement, g: nat, source: Rank, n: nat)
    requires l.local >= 1 && 0.0 <= d.fraction <= 1.0
    ensures Billable(Direct(d, l, g, source, n))
    decreases n
  {
    if n > 0 {
      DirectBillable(d, l, g, source, n - 1);
      assert d.size as real * d.fraction >= 0.0;
      assert d.size as real * d.fraction / l.local as real >= 0.0;
    }
  }

  lemma {:induction false} RelaysBillable(d: Demand, l: Placement, g: nat, h: nat, source: Rank, n: nat)
    requires |l.groups| >= 2 && l.local >= 1 && d.imbalance >= 1.0 && 0.0 <= d.fraction <= 1.0
    ensures Billable(Relays(d, l, g, h, source, n))
    decreases n
  {
    hide PerTarget;
    PerTargetNonNegative(d, l, g, h);
    if n > 0 { RelaysBillable(d, l, g, h, source, n - 1); }
  }

  lemma {:induction false} AllRelaysBillable(d: Demand, l: Placement, g: nat, source: Rank, n: nat)
    requires l.local >= 1 && d.imbalance >= 1.0 && 0.0 <= d.fraction <= 1.0
    ensures Billable(AllRelays(d, l, g, source, n))
    decreases n
  {
    hide Relays;
    if n > 0 && |l.groups| >= 2 {
      AllRelaysBillable(d, l, g, source, n - 1);
      RelaysBillable(d, l, g, n - 1, source, l.local);
    }
  }

  lemma {:induction false} LocalBillable(d: Demand, l: Placement, g: nat, n: nat)
    requires l.local >= 1 && d.imbalance >= 1.0 && 0.0 <= d.fraction <= 1.0
    ensures Billable(LocalMessages(d, l, g, n))
    decreases n
  {
    hide Direct, AllRelays;
    if n > 0 {
      LocalBillable(d, l, g, n - 1);
      DirectBillable(d, l, g, Member(l.groups, g, n - 1), l.local);
      AllRelaysBillable(d, l, g, Member(l.groups, g, n - 1), |l.groups|);
    }
  }

  lemma {:induction false} CrossingBillable(d: Demand, l: Placement, g: nat, h: nat, n: nat)
    requires |l.groups| >= 2 && l.local >= 1 && d.imbalance >= 1.0 && 0.0 <= d.fraction <= 1.0
    ensures Billable(Crossing(d, l, g, h, n)) && Billable(Spreading(d, l, g, h, n))
    decreases n
  {
    hide PerTarget;
    PerTargetNonNegative(d, l, g, h);
    if n > 0 { CrossingBillable(d, l, g, h, n - 1); }
  }

  lemma {:induction false} InterMessagesBillable(d: Demand, l: Placement, g: nat, h: nat, n: nat)
    requires |l.groups| >= 2 && l.local >= 1 && d.imbalance >= 1.0 && 0.0 <= d.fraction <= 1.0
    ensures Billable(InterMessages(d, l, g, h, n))
    decreases n
  {
    hide Crossing;
    if n > 0 {
      InterMessagesBillable(d, l, g, h, n - 1);
      CrossingBillable(d, l, g, h, l.local);
    }
  }

  lemma {:induction false} TargetBillable(d: Demand, l: Placement, h: nat, n: nat)
    requires |l.groups| >= 2 && l.local >= 1 && d.imbalance >= 1.0 && 0.0 <= d.fraction <= 1.0 && n <= |l.ranks|
    ensures Billable(TargetMessages(d, l, h, n))
    decreases n
  {
    hide Spreading;
    if n > 0 {
      TargetBillable(d, l, h, n - 1);
      CrossingBillable(d, l, HomeIndex(l, l.ranks[n - 1], |l.groups|), h, l.local);
    }
  }

  lemma {:induction false} SourceBillable(d: Demand, l: Placement, n: nat)
    requires l.local >= 1 && d.imbalance >= 1.0 && 0.0 <= d.fraction <= 1.0 && n <= |l.groups|
    ensures AllBillable(SourcePhases(d, l, n)) && AllBillable(SpreadPhases(d, l, n))
    decreases n
  {
    hide LocalMessages, TargetMessages, Billable;
    if n > 0 {
      SourceBillable(d, l, n - 1);
      LocalBillable(d, l, n - 1, l.local);
      if |l.groups| >= 2 { TargetBillable(d, l, n - 1, |l.ranks|); } else { NothingBillable(); }
    }
  }

  lemma {:induction false} NothingBillable()
    ensures Billable([])
  {
  }

  lemma {:induction false} InterFromBillable(d: Demand, l: Placement, g: nat, n: nat)
    requires |l.groups| >= 2 && l.local >= 1 && d.imbalance >= 1.0 && 0.0 <= d.fraction <= 1.0 && g < |l.groups| && n <= |l.groups|
    ensures AllBillable(InterFrom(d, l, g, n))
    decreases n
  {
    hide InterMessages, Billable;
    if n > 0 {
      InterFromBillable(d, l, g, n - 1);
      InterMessagesBillable(d, l, g, n - 1, l.local);
    }
  }

  lemma {:induction false} InterBillable(d: Demand, l: Placement, n: nat)
    requires |l.groups| >= 2 && l.local >= 1 && d.imbalance >= 1.0 && 0.0 <= d.fraction <= 1.0 && n <= |l.groups|
    ensures AllBillable(InterPhases(d, l, n))
    decreases n
  {
    hide InterFrom, BillableRounds;
    if n > 0 {
      InterBillable(d, l, n - 1);
      InterFromBillable(d, l, n - 1, |l.groups|);
    }
  }

  lemma {:induction false} AllToAllBillable(d: Demand, l: Placement)
    requires ValidPlacement(l) && ValidDemand(d, |l.groups|)
    ensures AllBillable(AllToAllPhases(d, l))
  {
    hide BillableRounds, SourcePhases, InterPhases, SpreadPhases;
    SourceBillable(d, l, |l.groups|);
    if |l.groups| >= 2 { InterBillable(d, l, |l.groups|); }
  }

  /** Every phase of an all-to-all plan has a timetable, and `service` completes on it as well. */
  lemma {:induction false} AllToAllServed(d: Demand, l: Placement, config: Domains, order: PhaseId -> nat)
    requires ValidPlacement(l) && ValidDemand(d, |l.groups|) && ValidDomains(config)
    ensures var schedule := Schedule(AllToAllPhases(d, l), [], PlanService.PhaseCost(config), order);
      && AllBillable(AllToAllPhases(d, l))
      && schedule.Some? && WellServed(AllToAllPhases(d, l), PlanService.PhaseCost(config), schedule.value)
  {
    hide AllBillable, WellServed, AllToAllPhases, Schedule, Orderly;
    AllToAllBillable(d, l);
    var phases := AllToAllPhases(d, l);
    AllToAllOrderly(d, l, phases);
    PlanService.PhasesCost(phases, config);
    ServiceGuarantees(phases, PlanService.PhaseCost(config), order);
  }

  // ----- the builder -----

  function PlacementOf(ranks: seq<Rank>, nodeOf: map<Rank, Node>): Placement
    requires Balanced(Groups(ranks, nodeOf))
  {
    Placement(ranks, NodeOrder(ranks, nodeOf, |ranks|), Groups(ranks, nodeOf), |Groups(ranks, nodeOf)[0]|)
  }

  lemma {:induction false} PlacementValid(ranks: seq<Rank>, nodeOf: map<Rank, Node>)
    requires Participants(ranks, nodeOf) && Balanced(Groups(ranks, nodeOf))
    ensures ValidPlacement(PlacementOf(ranks, nodeOf))
  {
    GridOfGroups(ranks, nodeOf);
    NodeOrderAscending(ranks, nodeOf, |ranks|);
  }

  predicate IsFraction(f: Option<real>) {
    f.Some? ==> 0.0 <= f.value <= 1.0
  }

  /** Within one part in 10^9, the tolerance of the sum check. */
  predicate CloseToOne(x: real) {
    var gap := if x >= 1.0 then x - 1.0 else 1.0 - x;
    gap <= 0.000000001 * Later(x, 1.0)
  }

  predicate ValidFractions(near: Option<real>, far: Option<real>) {
    IsFraction(near) && IsFraction(far) && (near.Some? && far.Some? ==> CloseToOne(near.value + far.value))
  }

  /** The local share: as given, as the complement of the remote share, or uniform over all ranks. */
  function LocalShare(near: Option<real>, far: Option<real>, l: Placement): real
    requires l.ranks != []
  {
    if near.Some? then near.value else if far.Some? then 1.0 - far.value else l.local as real / |l.ranks| as real
  }

  lemma {:induction false} UniformShare(l: Placement)
    requires ValidPlacement(l)
    ensures 0.0 <= l.local as real / |l.ranks| as real <= 1.0
  {
    GridCount(l.ranks, l.groups, l.local);
    MulMono(1, |l.groups|, l.local);
    Ratio(l.local as real, |l.ranks| as real);
  }

  lemma {:induction false} Ratio(a: real, b: real)
    requires 0.0 <= a <= b && b > 0.0
    ensures 0.0 <= a / b <= 1.0
  {
  }

  /** Everything `all_to_all_plan` checks; on one node nothing can be remote. */
  predicate AcceptsAllToAll(ranks: seq<Rank>, bytes: int, nodeOf: map<Rank, Node>, near: Option<real>, far: Option<real>,
                            imbalance: real, width: nat)
    requires width > 0
  {
    && WholeElements(bytes, width) && Participants(ranks, nodeOf)
    && ValidFractions(near, far) && imbalance >= 1.0
    && Balanced(Groups(ranks, nodeOf))
    && (|Groups(ranks, nodeOf)| == 1 ==> LocalShare(near, far, PlacementOf(ranks, nodeOf)) == 1.0)
  }
}
