/**
  What a phase computes.  Each rank holds a buffer of cells that start with arbitrary integers, so
  a statement for all inputs fixes how often every single contribution is counted.  All messages of
  a round read the buffers as they were before the round.
 */
module RingSemantics {
  import opened Common
  import opened TrafficTypes

  type Cell = int
  type Buffer = seq<Cell>
  type Buffers = map<Rank, Buffer>

  function Of(buffers: Buffers, r: Rank): Buffer {
    if r in buffers then buffers[r] else []
  }

  function At(buffer: Buffer, p: nat): Cell {
    if p < |buffer| then buffer[p] else 0
  }

  // ----- execution -----

  /** Adds or copies the bytes `lo..hi` of `source` into `buffer`. */
  function Patch(buffer: Buffer, source: Buffer, lo: nat, hi: nat, reduce: bool): (patched: Buffer)
    ensures |patched| == |buffer|
  {
    seq(|buffer|, p requires 0 <= p < |buffer| =>
      if !(lo <= p < hi) then buffer[p] else if reduce then buffer[p] + At(source, p) else At(source, p))
  }

  /** The buffers after the first `n` messages of a round; a message without a byte range moves no data. */
  function Deliver(before: Buffers, messages: Round, n: nat, reduce: bool): (after: Buffers)
    requires n <= |messages|
    ensures after.Keys == before.Keys
  {
    if n == 0 then before
    else
      var earlier, m := Deliver(before, messages, n - 1, reduce), messages[n - 1];
      if m.target in earlier && m.shard.Some?
      then earlier[m.target := Patch(earlier[m.target], Of(before, m.source), m.shard.value.0, m.shard.value.1, reduce)]
      else earlier
  }

  predicate Reduces(phase: TrafficPhase, step: nat) {
    phase.operation.ReduceScatter? || (phase.operation.AllReduce? && step < |phase.participants| - 1)
  }

  function AfterRounds(phase: TrafficPhase, start: Buffers, n: nat): (after: Buffers)
    requires n <= |phase.rounds|
    ensures after.Keys == start.Keys
  {
    if n == 0 then start
    else
      var messages := phase.rounds[n - 1];
      Deliver(AfterRounds(phase, start, n - 1), messages, |messages|, Reduces(phase, n - 1))
  }

  function IndexOf(ranks: seq<Rank>, r: Rank): (i: nat)
    requires r in ranks
    ensures i < |ranks| && ranks[i] == r && r !in ranks[..i]
  {
    if ranks[0] == r then 0 else 1 + IndexOf(ranks[1..], r)
  }

  /** `n` blank blocks of `width` bytes. */
  function Blanks(blank: Cell, n: nat, width: nat): Buffer {
    if n == 0 then [] else Blanks(blank, n - 1, width) + seq(width, _ => blank)
  }

  /** `block` as the i-th of `n` blocks of `width`, the others blank. */
  function Padded(block: Buffer, blank: Cell, i: nat, n: nat, width: nat): (b: Buffer)
    requires i < n
  {
    Blanks(blank, i, width) + block + Blanks(blank, n - 1 - i, width)
  }

  function ParticipantSet(phase: TrafficPhase): set<Rank> {
    set r | r in phase.participants
  }

  /** A gather starts from buffers that are blank except for the rank's own block. */
  function StartBuffers(phase: TrafficPhase, inputs: Buffers, blank: Cell): (start: Buffers)
    ensures start.Keys == ParticipantSet(phase)
  {
    map r | r in ParticipantSet(phase) ::
      if phase.operation.AllGather? then
        Padded(Of(inputs, r), blank, IndexOf(phase.participants, r), |phase.participants|, phase.inputBytes)
      else Of(inputs, r)
  }

  /** Byte `q` of the i-th block of `width` bytes. */
  function Offset(i: nat, width: nat, q: nat): (p: nat) {
    MulNonNegative(i, width);
    i * width + q
  }

  /** The i-th block of `width` bytes. */
  function Window(buffer: Buffer, i: nat, width: nat): (w: Buffer)
    ensures |w| == width
  {
    seq(width, q requires 0 <= q => At(buffer, Offset(i, width, q)))
  }

  /** A reduce-scatter keeps only the rank's own shard. */
  function Collected(phase: TrafficPhase, values: Buffers): (outputs: Buffers)
    requires values.Keys == ParticipantSet(phase)
    ensures outputs.Keys == ParticipantSet(phase)
  {
    if phase.operation.ReduceScatter? then
      map r | r in values ::
        Window(values[r], IndexOf(phase.participants, r), Div(phase.inputBytes, |phase.participants|))
    else values
  }

  function ExecuteRing(phase: TrafficPhase, inputs: Buffers, blank: Cell): (outputs: Buffers)
    ensures outputs.Keys == ParticipantSet(phase)
  {
    Collected(phase, AfterRounds(phase, StartBuffers(phase, inputs, blank), |phase.rounds|))
  }

  // ----- what the operations promise -----

  /** Byte `p` of the first `n` ranks, in rank order. */
  function Column(buffers: Buffers, ranks: seq<Rank>, p: nat, n: nat): (c: seq<Cell>)
    requires n <= |ranks|
    ensures |c| == n
  {
    if n == 0 then [] else Column(buffers, ranks, p, n - 1) + [At(Of(buffers, ranks[n - 1]), p)]
  }

  function Sum(cells: seq<Cell>): Cell {
    if cells == [] then 0 else Sum(cells[..|cells| - 1]) + cells[|cells| - 1]
  }

  /** All contributions of `ranks` at byte `p`. */
  function Total(buffers: Buffers, ranks: seq<Rank>, p: nat): Cell {
    if ranks == [] then 0
    else Total(buffers, ranks[..|ranks| - 1], p) + At(Of(buffers, ranks[|ranks| - 1]), p)
  }

  /** The i-th block of `width` bytes, fully reduced over `ranks`. */
  function ReducedShard(inputs: Buffers, ranks: seq<Rank>, i: nat, width: nat): (b: Buffer)
    ensures |b| == width
  {
    seq(width, q requires 0 <= q => Total(inputs, ranks, Offset(i, width, q)))
  }

  /** The inputs of `ranks`, one after the other. */
  function Gathered(inputs: Buffers, ranks: seq<Rank>): Buffer {
    if ranks == [] then []
    else Gathered(inputs, ranks[..|ranks| - 1]) + Of(inputs, ranks[|ranks| - 1])
  }

  ghost predicate Sized(buffers: Buffers, ranks: seq<Rank>, bytes: nat) {
    forall r :: r in ranks ==> r in buffers && |buffers[r]| == bytes
  }
}
