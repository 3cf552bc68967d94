/** What each kind of ring phase leaves on its participants. */
module RingResults {
  import opened Common
  import opened TrafficTypes
  import opened RingSemantics
  import opened RingCorrectness

  /** `phase` sends, in every round, the shards that `_ring_phase` lists. */
  ghost predicate IsRing(phase: TrafficPhase, nodeOf: map<Rank, Node>, chunk: nat) {
    var n := |phase.participants|;
    && n >= 1 && Distinct(phase.participants)
    && (phase.operation.AllReduce? || phase.operation.AllGather? || phase.operation.ReduceScatter?)
    && (phase.inputBytes > 0 ==> chunk > 0)
    && phase.rounds == RingRoundList(phase.operation, phase.participants, nodeOf, chunk,
         if n > 1 && phase.inputBytes > 0 then RingRounds(phase.operation, n) else 0)
  }

  /** A ring phase together with inputs of the size it was planned for. */
  ghost predicate Feeds(phase: TrafficPhase, nodeOf: map<Rank, Node>, chunk: nat, inputs: Buffers) {
    && IsRing(phase, nodeOf, chunk)
    && Sized(inputs, phase.participants, phase.inputBytes)
    && (if phase.operation.AllGather? then phase.inputBytes == chunk
        else phase.inputBytes == |phase.participants| * chunk)
  }

  lemma {:induction false} RingPhaseFeeds(id: PhaseId, operation: Operation, ranks: seq<Rank>, bytes: nat, nodeOf: map<Rank, Node>,
                       predecessors: seq<PhaseId>, chunk: nat, inputs: Buffers)
    requires |ranks| >= 1 && Distinct(ranks) && Sized(inputs, ranks, bytes)
    requires operation.AllReduce? || operation.AllGather? || operation.ReduceScatter?
    requires bytes == if operation.AllGather? then chunk else |ranks| * chunk
    ensures Feeds(RingPhase(id, operation, ranks, bytes, nodeOf, predecessors), nodeOf, chunk, inputs)
  {
    if !operation.AllGather? { ExactQuotient(|ranks|, chunk); }
    if chunk == 0 { assert |ranks| * chunk == 0; }
  }

  lemma {:induction false} ExactQuotient(n: nat, chunk: nat)
    requires n > 0
    ensures 0 <= n * chunk && Div(n * chunk, n) == chunk
  {
    DivExact(chunk, n);
  }

  lemma {:induction false} RoundListAt(operation: Operation, ranks: seq<Rank>, nodeOf: map<Rank, Node>, chunk: nat,
                                       n: nat, t: nat)
    requires t < n
    ensures RingRoundList(operation, ranks, nodeOf, chunk, n)[t] ==
            RingRound(ranks, nodeOf, chunk, RingShift(operation, |ranks|, t), |ranks|)
    decreases n
  {
    if t < n - 1 { RoundListAt(operation, ranks, nodeOf, chunk, n - 1, t); }
  }

  lemma {:induction false} DeliverKeepsSizes(before: Buffers, messages: Round, n: nat, reduce: bool, r: Rank)
    requires n <= |messages| && r in before
    ensures |Deliver(before, messages, n, reduce)[r]| == |before[r]|
    decreases n
  {
    if n > 0 { DeliverKeepsSizes(before, messages, n - 1, reduce, r); }
  }

  lemma {:induction false} RoundsKeepSizes(phase: TrafficPhase, start: Buffers, t: nat, r: Rank)
    requires t <= |phase.rounds| && r in start
    ensures |AfterRounds(phase, start, t)[r]| == |start[r]|
  {
    if t > 0 {
      RoundsKeepSizes(phase, start, t - 1, r);
      var messages := phase.rounds[t - 1];
      DeliverKeepsSizes(AfterRounds(phase, start, t - 1), messages, |messages|, Reduces(phase, t - 1), r);
    }
  }

  /** Byte `p` of every participant after 0, 1, ..., `n` rounds. */
  function HistoryOf(phase: TrafficPhase, start: Buffers, p: nat, n: nat): (h: History)
    requires n <= |phase.rounds|
    ensures |h| == n + 1 && |h[0]| == |phase.participants|
  {
    var now := Column(AfterRounds(phase, start, n), phase.participants, p, |phase.participants|);
    if n == 0 then [now] else HistoryOf(phase, start, p, n - 1) + [now]
  }

  lemma {:induction false} HistoryAt(phase: TrafficPhase, start: Buffers, p: nat, n: nat, t: nat)
    requires t <= n <= |phase.rounds|
    ensures HistoryOf(phase, start, p, n)[t] ==
            Column(AfterRounds(phase, start, t), phase.participants, p, |phase.participants|)
    decreases n
  {
    if t < n { HistoryAt(phase, start, p, n - 1, t); }
  }

  function Full(phase: TrafficPhase, start: Buffers, p: nat): (h: History)
    ensures |h| == |phase.rounds| + 1 && |h[0]| == |phase.participants|
  {
    HistoryOf(phase, start, p, |phase.rounds|)
  }

  /** A ring phase about to run on `start`, seen at byte `p` of shard `k`. */
  ghost predicate AtByte(phase: TrafficPhase, nodeOf: map<Rank, Node>, chunk: nat, start: Buffers, size: nat,
                         p: nat, k: nat)
  {
    && IsRing(phase, nodeOf, chunk)
    && Sized(start, phase.participants, size)
    && chunk > 0 && p < size && InShard(p, k, chunk) && k < |phase.participants|
  }

  lemma {:induction false} RingRoundStep(phase: TrafficPhase, nodeOf: map<Rank, Node>, chunk: nat, start: Buffers, size: nat,
                      p: nat, k: nat, t: nat)
    requires AtByte(phase, nodeOf, chunk, start, size, p, k) && t < |phase.rounds|
    ensures 0 <= RingShift(phase.operation, |phase.participants|, t) < |phase.participants|
    ensures RingStep(Column(AfterRounds(phase, start, t), phase.participants, p, |phase.participants|),
                     Column(AfterRounds(phase, start, t + 1), phase.participants, p, |phase.participants|),
                     k, RingShift(phase.operation, |phase.participants|, t), Reduces(phase, t))
  {
    var before, ranks := AfterRounds(phase, start, t), phase.participants;
    forall r | r in ranks ensures r in before && |before[r]| == size { RoundsKeepSizes(phase, start, t, r); }
    RoundListAt(phase.operation, ranks, nodeOf, chunk, |phase.rounds|, t);
    DeliverRound(before, ranks, nodeOf, chunk, RingShift(phase.operation, |ranks|, t), Reduces(phase, t), size, p, k);
  }

  lemma {:induction false} RingByteStep(phase: TrafficPhase, nodeOf: map<Rank, Node>, chunk: nat, start: Buffers, size: nat,
                     p: nat, k: nat, t: nat)
    requires AtByte(phase, nodeOf, chunk, start, size, p, k) && t < |phase.rounds|
    ensures 0 <= RingShift(phase.operation, |phase.participants|, t) < |phase.participants|
    ensures RingStep(Full(phase, start, p)[t], Full(phase, start, p)[t + 1], k,
                     RingShift(phase.operation, |phase.participants|, t), Reduces(phase, t))
  {
    RingRoundStep(phase, nodeOf, chunk, start, size, p, k, t);
    HistoryAt(phase, start, p, |phase.rounds|, t);
    HistoryAt(phase, start, p, |phase.rounds|, t + 1);
  }

  lemma {:induction false} SumAppend(cells: seq<Cell>, x: Cell)
    ensures Sum(cells + [x]) == Sum(cells) + x
  {
    assert (cells + [x])[..|cells|] == cells;
  }

  lemma {:induction false} TotalAppend(buffers: Buffers, ranks: seq<Rank>, r: Rank, p: nat)
    ensures Total(buffers, ranks + [r], p) == Total(buffers, ranks, p) + At(Of(buffers, r), p)
  {
    assert (ranks + [r])[..|ranks|] == ranks;
  }

  lemma {:induction false} TotalTake(buffers: Buffers, ranks: seq<Rank>, p: nat, n: nat)
    requires 0 < n <= |ranks|
    ensures Total(buffers, ranks[..n], p) == Total(buffers, ranks[..n - 1], p) + At(Of(buffers, ranks[n - 1]), p)
  {
    assert ranks[..n][..n - 1] == ranks[..n - 1];
  }

  lemma {:induction false} SumOfColumn(buffers: Buffers, ranks: seq<Rank>, p: nat, n: nat)
    requires n <= |ranks|
    ensures Sum(Column(buffers, ranks, p, n)) == Total(buffers, ranks[..n], p)
    decreases n
  {
    if n > 0 {
      SumOfColumn(buffers, ranks, p, n - 1);
      SumAppend(Column(buffers, ranks, p, n - 1), At(Of(buffers, ranks[n - 1]), p));
      TotalTake(buffers, ranks, p, n);
    }
  }

  lemma {:induction false} ReducedByte(phase: TrafficPhase, nodeOf: map<Rank, Node>, chunk: nat, start: Buffers, size: nat, p: nat, k: nat)
    requires AtByte(phase, nodeOf, chunk, start, size, p, k) && !phase.operation.AllGather?
    requires |phase.participants| > 1 && phase.inputBytes > 0
    ensures |phase.participants| <= |Full(phase, start, p)|
    ensures Full(phase, start, p)[|phase.participants| - 1][k] == Total(start, phase.participants, p)
  {
    var h, n := Full(phase, start, p), |phase.participants|;
    forall t | 0 <= t < n - 1
      ensures ReducesAt(h, k, t)
    {
      RingByteStep(phase, nodeOf, chunk, start, size, p, k, t);
    }
    ReducedHistory(h, k);
    HistoryAt(phase, start, p, |phase.rounds|, 0);
    SumOfColumn(start, phase.participants, p, n);
    assert phase.participants[..n] == phase.participants;
  }

  /** The round in which gathering starts. */
  function GatherStart(operation: Operation, n: nat): nat
    requires n >= 1
  {
    if operation.AllReduce? then n - 1 else 0
  }

  lemma {:induction false} GatheredByte(phase: TrafficPhase, nodeOf: map<Rank, Node>, chunk: nat, start: Buffers, size: nat,
                     p: nat, k: nat, j: nat)
    requires AtByte(phase, nodeOf, chunk, start, size, p, k) && !phase.operation.ReduceScatter?
    requires |phase.participants| > 1 && phase.inputBytes > 0 && j < |phase.participants|
    ensures
      var h, from := Full(phase, start, p), GatherStart(phase.operation, |phase.participants|);
      && |h| == from + |phase.participants|
      && h[|h| - 1][j] == h[from][k]
  {
    var h, from := Full(phase, start, p), GatherStart(phase.operation, |phase.participants|);
    forall t | from <= t < |phase.rounds|
      ensures GathersAt(h, k, from, t)
    {
      RingByteStep(phase, nodeOf, chunk, start, size, p, k, t);
    }
    GatherHistory(h, k, from, |phase.participants| - 1, j);
  }

  lemma {:induction false} OneTermTotal(buffers: Buffers, ranks: seq<Rank>, p: nat)
    requires |ranks| == 1
    ensures Total(buffers, ranks, p) == At(Of(buffers, ranks[0]), p)
  {
    assert ranks[..0] == [];
  }

  lemma {:induction false} ReducedEverywhere(phase: TrafficPhase, nodeOf: map<Rank, Node>, chunk: nat, start: Buffers, p: nat, k: nat, j: nat)
    requires AtByte(phase, nodeOf, chunk, start, phase.inputBytes, p, k) && j < |phase.participants|
    requires phase.operation.AllReduce? || (phase.operation.ReduceScatter? && j == k)
    ensures At(Of(AfterRounds(phase, start, |phase.rounds|), phase.participants[j]), p) ==
            Total(start, phase.participants, p)
  {
    var h := Full(phase, start, p);
    HistoryAt(phase, start, p, |phase.rounds|, |phase.rounds|);
    ColumnAt(AfterRounds(phase, start, |phase.rounds|), phase.participants, p, |phase.participants|, j);
    if |phase.participants| == 1 {
      OneTermTotal(start, phase.participants, p);
    } else {
      ReducedByte(phase, nodeOf, chunk, start, phase.inputBytes, p, k);
      if phase.operation.AllReduce? {
        GatheredByte(phase, nodeOf, chunk, start, phase.inputBytes, p, k, j);
      }
    }
  }

  lemma {:induction false} SameTotal(a: Buffers, b: Buffers, ranks: seq<Rank>, p: nat)
    requires forall r :: r in ranks ==> At(Of(a, r), p) == At(Of(b, r), p)
    ensures Total(a, ranks, p) == Total(b, ranks, p)
  {
    if ranks != [] { SameTotal(a, b, ranks[..|ranks| - 1], p); }
  }

  lemma {:induction false} SameStart(phase: TrafficPhase, inputs: Buffers, blank: Cell)
    requires !phase.operation.AllGather?
    ensures forall r :: r in phase.participants ==> Of(StartBuffers(phase, inputs, blank), r) == Of(inputs, r)
  {
  }

  lemma {:induction false} ReducedByteOf(phase: TrafficPhase, nodeOf: map<Rank, Node>, chunk: nat, inputs: Buffers, blank: Cell, j: nat, p: nat)
    requires Feeds(phase, nodeOf, chunk, inputs) && phase.operation.AllReduce? && j < |phase.participants|
    requires p < phase.inputBytes
    ensures At(Of(ExecuteRing(phase, inputs, blank), phase.participants[j]), p) == Total(inputs, phase.participants, p)
  {
    var start := StartBuffers(phase, inputs, blank);
    SameStart(phase, inputs, blank);
    var k := ShardFor(p, chunk, |phase.participants|);
    ReducedEverywhere(phase, nodeOf, chunk, start, p, k, j);
    SameTotal(start, inputs, phase.participants, p);
  }

  /** A ring all-reduce leaves every participant with the whole sum. */
  lemma {:induction false} AllReduceResult(phase: TrafficPhase, nodeOf: map<Rank, Node>, chunk: nat, inputs: Buffers, blank: Cell, j: nat)
    requires Feeds(phase, nodeOf, chunk, inputs) && phase.operation.AllReduce? && j < |phase.participants|
    ensures Of(ExecuteRing(phase, inputs, blank), phase.participants[j]) ==
            ReducedShard(inputs, phase.participants, 0, phase.inputBytes)
  {
    var output := Of(ExecuteRing(phase, inputs, blank), phase.participants[j]);
    var expected := ReducedShard(inputs, phase.participants, 0, phase.inputBytes);
    RoundsKeepSizes(phase, StartBuffers(phase, inputs, blank), |phase.rounds|, phase.participants[j]);
    forall p | 0 <= p < phase.inputBytes
      ensures output[p] == expected[p]
    {
      ReducedByteOf(phase, nodeOf, chunk, inputs, blank, j, p);
    }
  }

  lemma {:induction false} OffsetInShard(i: nat, n: nat, width: nat, q: nat)
    requires i < n && q < width
    ensures InShard(Offset(i, width, q), i, width)
    ensures Offset(i, width, q) < n * width
  {
    MulMono(i + 1, n, width);
    ShardOf(Offset(i, width, q), i, width);
    InShardIff(Offset(i, width, q), i, width);
  }

  lemma {:induction false} ScatterByte(phase: TrafficPhase, nodeOf: map<Rank, Node>, chunk: nat, inputs: Buffers, blank: Cell, i: nat, q: nat)
    requires Feeds(phase, nodeOf, chunk, inputs) && phase.operation.ReduceScatter? && i < |phase.participants|
    requires q < chunk
    ensures At(Of(AfterRounds(phase, StartBuffers(phase, inputs, blank), |phase.rounds|), phase.participants[i]),
               Offset(i, chunk, q)) ==
            Total(inputs, phase.participants, Offset(i, chunk, q))
  {
    var start, p := StartBuffers(phase, inputs, blank), Offset(i, chunk, q);
    OffsetInShard(i, |phase.participants|, chunk, q);
    SameStart(phase, inputs, blank);
    ReducedEverywhere(phase, nodeOf, chunk, start, p, i, i);
    SameTotal(start, inputs, phase.participants, p);
  }

  lemma {:induction false} ScatterWindow(phase: TrafficPhase, nodeOf: map<Rank, Node>, chunk: nat, inputs: Buffers, blank: Cell, i: nat)
    requires Feeds(phase, nodeOf, chunk, inputs) && phase.operation.ReduceScatter? && i < |phase.participants|
    ensures Of(ExecuteRing(phase, inputs, blank), phase.participants[i]) ==
            Window(Of(AfterRounds(phase, StartBuffers(phase, inputs, blank), |phase.rounds|), phase.participants[i]),
                   i, chunk)
  {
    ExactQuotient(|phase.participants|, chunk);
    DistinctAt(phase.participants, IndexOf(phase.participants, phase.participants[i]), i);
  }

  /** A ring reduce-scatter leaves the i-th participant with the fully reduced i-th shard. */
  lemma {:induction false} ReduceScatterResult(phase: TrafficPhase, nodeOf: map<Rank, Node>, chunk: nat, inputs: Buffers, blank: Cell, i: nat)
    requires Feeds(phase, nodeOf, chunk, inputs) && phase.operation.ReduceScatter? && i < |phase.participants|
    ensures Of(ExecuteRing(phase, inputs, blank), phase.participants[i]) ==
            ReducedShard(inputs, phase.participants, i, chunk)
  {
    var last := Of(AfterRounds(phase, StartBuffers(phase, inputs, blank), |phase.rounds|), phase.participants[i]);
    ScatterWindow(phase, nodeOf, chunk, inputs, blank, i);
    var output, expected := Window(last, i, chunk), ReducedShard(inputs, phase.participants, i, chunk);
    forall q | 0 <= q < chunk
      ensures output[q] == expected[q]
    {
      ScatterByte(phase, nodeOf, chunk, inputs, blank, i, q);
    }
  }

  lemma {:induction false} BlanksLength(blank: Cell, n: nat, width: nat)
    ensures |Blanks(blank, n, width)| == n * width
    decreases n
  {
    if n > 0 {
      BlanksLength(blank, n - 1, width);
      assert n * width == (n - 1) * width + width;
    }
  }

  lemma {:induction false} PaddedAt(block: Buffer, blank: Cell, i: nat, n: nat, width: nat, q: nat)
    requires i < n && |block| == width
    ensures |Padded(block, blank, i, n, width)| == n * width
    ensures q < width ==> At(Padded(block, blank, i, n, width), Offset(i, width, q)) == block[q]
  {
    BlanksLength(blank, i, width);
    BlanksLength(blank, n - 1 - i, width);
    assert i * width + width + (n - 1 - i) * width == n * width;
  }

  /** In a gather every rank starts with its own block in place. */
  lemma {:induction false} GatherStarts(phase: TrafficPhase, nodeOf: map<Rank, Node>, chunk: nat, inputs: Buffers, blank: Cell, k: nat, q: nat)
    requires Feeds(phase, nodeOf, chunk, inputs) && phase.operation.AllGather? && k < |phase.participants|
    ensures |Of(StartBuffers(phase, inputs, blank), phase.participants[k])| == |phase.participants| * chunk
    ensures q < chunk ==>
      At(Of(StartBuffers(phase, inputs, blank), phase.participants[k]), Offset(k, chunk, q)) ==
      At(Of(inputs, phase.participants[k]), q)
  {
    DistinctAt(phase.participants, IndexOf(phase.participants, phase.participants[k]), k);
    PaddedAt(Of(inputs, phase.participants[k]), blank, k, |phase.participants|, chunk, q);
  }

  lemma {:induction false} GatherSized(phase: TrafficPhase, nodeOf: map<Rank, Node>, chunk: nat, inputs: Buffers, blank: Cell)
    requires Feeds(phase, nodeOf, chunk, inputs) && phase.operation.AllGather?
    ensures Sized(StartBuffers(phase, inputs, blank), phase.participants, |phase.participants| * chunk)
  {
    var start := StartBuffers(phase, inputs, blank);
    forall r | r in phase.participants
      ensures r in start && |start[r]| == |phase.participants| * chunk
    {
      GatherStarts(phase, nodeOf, chunk, inputs, blank, IndexOf(phase.participants, r), 0);
    }
  }

  lemma {:induction false} GatherByte(phase: TrafficPhase, nodeOf: map<Rank, Node>, chunk: nat, inputs: Buffers, blank: Cell,
                   j: nat, k: nat, q: nat)
    requires Feeds(phase, nodeOf, chunk, inputs) && phase.operation.AllGather?
    requires j < |phase.participants| && k < |phase.participants| && q < chunk
    ensures At(Of(AfterRounds(phase, StartBuffers(phase, inputs, blank), |phase.rounds|), phase.participants[j]),
               Offset(k, chunk, q)) == At(Of(inputs, phase.participants[k]), q)
  {
    var n, start, p := |phase.participants|, StartBuffers(phase, inputs, blank), Offset(k, chunk, q);
    GatherStarts(phase, nodeOf, chunk, inputs, blank, k, q);
    if n > 1 {
      GatherSized(phase, nodeOf, chunk, inputs, blank);
      OffsetInShard(k, n, chunk, q);
      GatheredByte(phase, nodeOf, chunk, start, n * chunk, p, k, j);
      HistoryAt(phase, start, p, |phase.rounds|, 0);
      HistoryAt(phase, start, p, |phase.rounds|, |phase.rounds|);
      ColumnAt(start, phase.participants, p, n, k);
      ColumnAt(AfterRounds(phase, start, |phase.rounds|), phase.participants, p, n, j);
    }
  }

  lemma {:induction false} GatherLength(phase: TrafficPhase, nodeOf: map<Rank, Node>, chunk: nat, inputs: Buffers, blank: Cell, j: nat)
    requires Feeds(phase, nodeOf, chunk, inputs) && phase.operation.AllGather? && j < |phase.participants|
    ensures |Of(ExecuteRing(phase, inputs, blank), phase.participants[j])| == |phase.participants| * chunk
  {
    GatherStarts(phase, nodeOf, chunk, inputs, blank, j, 0);
    RoundsKeepSizes(phase, StartBuffers(phase, inputs, blank), |phase.rounds|, phase.participants[j]);
  }

  /** A ring all-gather leaves every participant with all inputs, one block per participant in ring order. */
  lemma {:induction false} AllGatherResult(phase: TrafficPhase, nodeOf: map<Rank, Node>, chunk: nat, inputs: Buffers, blank: Cell,
                        j: nat, k: nat)
    requires Feeds(phase, nodeOf, chunk, inputs) && phase.operation.AllGather?
    requires j < |phase.participants| && k < |phase.participants|
    ensures Window(Of(ExecuteRing(phase, inputs, blank), phase.participants[j]), k, chunk) ==
            Of(inputs, phase.participants[k])
  {
    var output := Of(ExecuteRing(phase, inputs, blank), phase.participants[j]);
    var block, expected := Window(output, k, chunk), Of(inputs, phase.participants[k]);
    forall q | 0 <= q < chunk
      ensures block[q] == expected[q]
    {
      GatherByte(phase, nodeOf, chunk, inputs, blank, j, k, q);
    }
  }
}
