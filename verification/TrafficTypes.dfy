/** Transmissions, phases and plans, and the ring phase that every collective is built from. */
module TrafficTypes {
  import opened Common

  type Rank = nat
  type Node = int

  datatype Operation = AllReduce | AllGather | ReduceScatter | DataReorder | AllToAll

  /** The identifiers given to phases; distinct constructors and indices are distinct strings. */
  datatype PhaseId =
    | Ring
    | LocalRs(group: nat)
    | InterAr(slot: nat)
    | LocalAg(group: nat)
    | InterAg(slot: nat)
    | Layout(group: nat)
    | InputLayout(group: nat)
    | LocalRsTo(group: nat, destination: nat)
    | InterRs(slot: nat)
    | SourceLocal(node: Node)
    | Inter(sourceNode: Node, targetNode: Node)
    | DestinationLocal(node: Node)

  /** `shard` is a half-open byte range of the tensor; statistical traffic has none. */
  datatype Transmission = Transmission(
    source: Rank,
    target: Rank,
    wireBytes: real,
    sourceNode: Node,
    targetNode: Node,
    shard: Option<(nat, nat)>)

  type Round = seq<Transmission>

  datatype TrafficPhase = TrafficPhase(
    id: PhaseId,
    operation: Operation,
    participants: seq<Rank>,
    inputBytes: nat,
    rounds: seq<Round>,
    predecessors: seq<PhaseId>,
    permutation: seq<nat>)

  datatype TrafficPlan = TrafficPlan(
    operation: Operation,
    participants: seq<Rank>,
    inputBytes: nat,
    phases: seq<TrafficPhase>)

  // ----- ring volume and its alignment checks -----

  /** `validated_bytes`: a nonnegative number of whole elements of `width` bytes. */
  predicate WholeElements(bytes: int, width: nat)
    requires width > 0
  {
    bytes >= 0 && bytes % width == 0
  }

  /** When `ring_volume` accepts; reductions also need every shard to hold whole elements. */
  predicate RingAligned(operation: Operation, participants: nat, bytes: int, width: nat)
    requires width > 0
  {
    && participants >= 1
    && WholeElements(bytes, width)
    && (operation.AllGather? || operation.AllReduce? || operation.ReduceScatter?)
    && (!operation.AllGather? && participants > 1 ==> bytes % (participants * width) == 0)
  }

  function RingRounds(operation: Operation, participants: nat): nat
    requires participants >= 1
  {
    if operation.AllReduce? then 2 * (participants - 1) else participants - 1
  }

  /** Bytes in one shard: gathers move whole inputs, reductions move one share of the input. */
  function ShardBytes(operation: Operation, participants: nat, bytes: nat): nat
    requires participants >= 1
  {
    if operation.AllGather? then bytes else Div(bytes, participants)
  }

  // ----- ring phase -----

  /** In round `step` index `i` sends shard `(i - RingShift) mod count` to its right neighbour. */
  function RingShift(operation: Operation, count: nat, step: nat): int {
    if operation.ReduceScatter? || (operation.AllReduce? && step < count - 1) then step + 1
    else if operation.AllReduce? then step - (count - 1)
    else step
  }

  function Home(nodeOf: map<Rank, Node>, r: Rank): Node {
    if r in nodeOf then nodeOf[r] else 0
  }

  function ShardRange(shard: nat, chunk: nat): (nat, nat) {
    MulNonNegative(shard, chunk);
    (shard * chunk, shard * chunk + chunk)
  }

  function RingMessage(ranks: seq<Rank>, nodeOf: map<Rank, Node>, chunk: nat, shift: int, i: nat): Transmission
    requires i < |ranks|
  {
    var target := ranks[(i + 1) % |ranks|];
    var shard := (i - shift) % |ranks|;
    Transmission(ranks[i], target, chunk as real, Home(nodeOf, ranks[i]), Home(nodeOf, target),
                 Some(ShardRange(shard, chunk)))
  }

  /** The messages of the first `n` indices in one round. */
  function RingRound(ranks: seq<Rank>, nodeOf: map<Rank, Node>, chunk: nat, shift: int, n: nat): (round: Round)
    requires n <= |ranks|
    ensures |round| == n
  {
    if n == 0 then []
    else RingRound(ranks, nodeOf, chunk, shift, n - 1) + [RingMessage(ranks, nodeOf, chunk, shift, n - 1)]
  }

  /** The first `n` rounds. */
  function RingRoundList(operation: Operation, ranks: seq<Rank>, nodeOf: map<Rank, Node>, chunk: nat, n: nat)
    : (rounds: seq<Round>)
    ensures |rounds| == n
  {
    if n == 0 then []
    else RingRoundList(operation, ranks, nodeOf, chunk, n - 1)
         + [RingRound(ranks, nodeOf, chunk, RingShift(operation, |ranks|, n - 1), |ranks|)]
  }

  function RingPhase(id: PhaseId, operation: Operation, ranks: seq<Rank>, bytes: nat,
                     nodeOf: map<Rank, Node>, predecessors: seq<PhaseId>): TrafficPhase
    requires |ranks| >= 1
  {
    var count := |ranks|;
    var total := if count > 1 && bytes > 0 then RingRounds(operation, count) else 0;
    TrafficPhase(id, operation, ranks, bytes,
                 RingRoundList(operation, ranks, nodeOf, ShardBytes(operation, count, bytes), total),
                 predecessors, [])
  }

  /** The three cases of `_ring_phase` for the shard that `index` sends. */
  method SentShard(operation: Operation, count: nat, step: nat, index: nat) returns (shard: nat)
    requires index < count
    ensures shard == (index - RingShift(operation, count, step)) % count
  {
    if operation.ReduceScatter? || (operation.AllReduce? && step < count - 1) {
      shard := (index - step - 1) % count;
      assert index - step - 1 == index - (step + 1);
    } else if operation.AllReduce? {
      shard := (index - (step - (count - 1))) % count;
    } else {
      shard := (index - step) % count;
    }
  }

  /** The inner loop of `_ring_phase`: every index sends one shard to its right neighbour. */
  method BuildRingRound(operation: Operation, ranks: seq<Rank>, nodeOf: map<Rank, Node>, chunk: nat, step: nat)
    returns (messages: Round)
    requires forall r :: r in ranks ==> r in nodeOf
    ensures messages == RingRound(ranks, nodeOf, chunk, RingShift(operation, |ranks|, step), |ranks|)
  {
    messages := [];
    ghost var shift := RingShift(operation, |ranks|, step);
    for index := 0 to |ranks|
      invariant messages == RingRound(ranks, nodeOf, chunk, shift, index)
    {
      var target := ranks[(index + 1) % |ranks|];
      var shard := SentShard(operation, |ranks|, step, index);
      var message := Transmission(ranks[index], target, chunk as real, nodeOf[ranks[index]], nodeOf[target],
                                  Some(ShardRange(shard, chunk)));
      assert message == RingMessage(ranks, nodeOf, chunk, shift, index);
      messages := messages + [message];
    }
  }

  method BuildRingRounds(operation: Operation, ranks: seq<Rank>, nodeOf: map<Rank, Node>, chunk: nat)
    returns (rounds: seq<Round>)
    requires |ranks| >= 1
    requires forall r :: r in ranks ==> r in nodeOf
    ensures rounds == RingRoundList(operation, ranks, nodeOf, chunk, RingRounds(operation, |ranks|))
  {
    rounds := [];
    for step := 0 to RingRounds(operation, |ranks|)
      invariant rounds == RingRoundList(operation, ranks, nodeOf, chunk, step)
    {
      var messages := BuildRingRound(operation, ranks, nodeOf, chunk, step);
      rounds := rounds + [messages];
    }
  }

  /** `_ring_phase`: refuses a misaligned size, otherwise lists the messages round by round. */
  method BuildRingPhase(id: PhaseId, operation: Operation, ranks: seq<Rank>, bytes: nat,
                        nodeOf: map<Rank, Node>, predecessors: seq<PhaseId>, width: nat)
    returns (result: Result<TrafficPhase>)
    requires width > 0
    requires forall r :: r in ranks ==> r in nodeOf
    ensures result.Err? <==> !RingAligned(operation, |ranks|, bytes, width)
    ensures result.Ok? ==> result.value == RingPhase(id, operation, ranks, bytes, nodeOf, predecessors)
    ensures result.Err? ==> result.error == ConfigurationError
  {
    if !RingAligned(operation, |ranks|, bytes, width) {
      return Err(ConfigurationError);
    }
    var rounds: seq<Round> := [];
    if |ranks| > 1 && bytes > 0 {
      var chunk := if operation.AllGather? then bytes else Div(bytes, |ranks|);
      rounds := BuildRingRounds(operation, ranks, nodeOf, chunk);
    }
    result := Ok(TrafficPhase(id, operation, ranks, bytes, rounds, predecessors, []));
  }
}
