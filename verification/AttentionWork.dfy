/** The FLOP and byte accounting of compressed attention, and the bounds computed from memoised constants. */
module AttentionWork {
  import opened Common
  import opened AttentionPairs

  /** Sizes of the model; `indexedRatio` is the compression ratio whose layers have an indexer. */
  datatype Geometry = Geometry(hidden: nat, headDim: nat, qLora: nat, oLora: nat, oGroups: nat, indexHeads: nat, indexHeadDim: nat,
                               topk: nat, indexedRatio: int, window: nat, ropeDim: nat)

  /** Bytes per element of each operand, and per state of the two caches. */
  datatype Widths = Widths(projection: real, absorption: real, compressor: real, attention: real, indexer: real, bf16: real,
                           kvState: real, indexerState: real)

  /** Operations per second of each kind, and bytes per second. */
  datatype Rates = Rates(projection: real, absorption: real, compressor: real, indexer: real, indexerWeights: real, attention: real,
                         bandwidth: real)

  predicate ValidRates(r: Rates) {
    && r.projection > 0.0 && r.absorption > 0.0 && r.compressor > 0.0 && r.indexer > 0.0 && r.indexerWeights > 0.0
    && r.attention > 0.0 && r.bandwidth > 0.0
  }

  datatype Model = Model(geometry: Geometry, widths: Widths, rates: Rates)

  /** What the work depends on beside the shape of the batch. */
  datatype Identity = Identity(ratio: int, heads: int, tp: nat)

  datatype Key = Key(identity: Identity, prefill: bool, batch: int, queries: int, context: int)

  datatype Flops = Flops(projection: int, absorption: int, compressor: int, indexer: int, indexerWeights: int, attention: int)

  datatype Bytes = Bytes(projectionWeights: real, absorptionWeights: real, compressorWeights: real, indexerProjectionWeights: real,
                         indexerWeights: real, activations: real, rope: real, attentionKv: real, indexerKv: real)

  // ----- the shape of a batch -----

  function Batch(k: Key): nat { Max(1, k.batch) }

  function Queries(k: Key): nat { if k.prefill then Max(1, k.queries) else 1 }

  function Prefix(k: Key): nat { if k.prefill then Max(0, k.context) else Max(0, Max(0, k.context) - 1) }

  function KvLen(k: Key): nat { if k.prefill then Prefix(k) + Queries(k) else Prefix(k) }

  function Tokens(k: Key): nat {
    MulNonNegative(Batch(k), Queries(k));
    Batch(k) * Queries(k)
  }

  predicate Indexed(m: Model, i: Identity) { i.ratio == m.geometry.indexedRatio }

  function CompressedLen(k: Key): nat { if k.identity.ratio > 1 then KvLen(k) / k.identity.ratio else 0 }

  function CompressedLimit(m: Model, k: Key): nat { if Indexed(m, k.identity) then m.geometry.topk else CompressedLen(k) }

  function WindowPart(m: Model, k: Key): int {
    if k.prefill then CausalLimitedPairs(Batch(k), Queries(k), Prefix(k), m.geometry.window)
    else Batch(k) * Min(KvLen(k), m.geometry.window)
  }

  function CompressedPart(m: Model, k: Key): int {
    if k.prefill then
      if k.identity.ratio > 1 then CompressedContextPairs(Batch(k), Queries(k), Prefix(k), k.identity.ratio, CompressedLimit(m, k)) else 0
    else Batch(k) * Min(CompressedLen(k), CompressedLimit(m, k))
  }

  /** The pairs that are really attended to, query by query. */
  function AttendedPairs(m: Model, k: Key): int {
    if k.prefill then
      Batch(k) * WindowPairs(Prefix(k), m.geometry.window, Queries(k))
      + (if k.identity.ratio > 1 then Batch(k) * CompressedPairs(Prefix(k), k.identity.ratio, CompressedLimit(m, k), Queries(k)) else 0)
    else Batch(k) * Min(KvLen(k), m.geometry.window) + Batch(k) * Min(CompressedLen(k), CompressedLimit(m, k))
  }

  lemma {:induction false} PairsAreAttended(m: Model, k: Key)
    ensures WindowPart(m, k) + CompressedPart(m, k) == AttendedPairs(m, k)
  {
    if k.prefill {
      CausalPairsAreWindowed(Batch(k), Queries(k), Prefix(k), m.geometry.window);
      if m.geometry.window == 0 { NoWindow(Prefix(k), Queries(k)); }
      if k.identity.ratio > 1 { ContextPairsAreCompressed(Batch(k), Queries(k), Prefix(k), k.identity.ratio, CompressedLimit(m, k)); }
    }
  }

  lemma {:induction false} NoWindow(prefix: nat, n: nat)
    ensures WindowPairs(prefix, 0, n) == 0
    decreases n
  {
    if n > 0 { NoWindow(prefix, n - 1); }
  }

  // ----- weights -----

  function Groups(m: Model, i: Identity): nat { if i.tp == 0 then 0 else m.geometry.oGroups / i.tp }

  function ProjectionWeights(m: Model, i: Identity): int {
    var g := m.geometry;
    g.hidden * g.qLora + g.qLora * i.heads * g.headDim + g.hidden * g.headDim + Groups(m, i) * g.oLora * g.hidden
  }

  function AbsorptionWeights(m: Model, i: Identity): int { i.heads * m.geometry.headDim * m.geometry.oLora }

  function KeyMultiplier(m: Model, i: Identity): int { if Indexed(m, i) then 2 else 1 }

  function CompressorWeights(m: Model, i: Identity): int {
    var g := m.geometry;
    if i.ratio <= 1 then 0
    else 2 * g.hidden * KeyMultiplier(m, i) * g.headDim + (if Indexed(m, i) then 2 * g.hidden * 2 * g.indexHeadDim else 0)
  }

  /** Per token, beside its weights: the pointwise work of the compressors. */
  function CompressorPointwise(m: Model, i: Identity): int {
    if i.ratio <= 1 then 0
    else 2 * (KeyMultiplier(m, i) * m.geometry.headDim) + (if Indexed(m, i) then 2 * (2 * m.geometry.indexHeadDim) else 0)
  }

  function CompressorOps(m: Model, k: Key): int {
    var g, i, t := m.geometry, k.identity, Tokens(k);
    if i.ratio <= 1 then 0
    else
      2 * t * (2 * g.hidden * KeyMultiplier(m, i) * g.headDim) + 2 * t * (KeyMultiplier(m, i) * g.headDim)
      + (if Indexed(m, i) then 2 * t * (2 * g.hidden * 2 * g.indexHeadDim) + 2 * t * (2 * g.indexHeadDim) else 0)
  }

  function IndexerProjection(m: Model, i: Identity): int {
    if Indexed(m, i) then m.geometry.qLora * m.geometry.indexHeads * m.geometry.indexHeadDim else 0
  }

  function IndexerWeights(m: Model, i: Identity): int {
    if Indexed(m, i) then m.geometry.hidden * m.geometry.indexHeads else 0
  }

  function IndexerPairs(m: Model, k: Key): int {
    if Indexed(m, k.identity) then Tokens(k) * CompressedLen(k) else 0
  }

  // ----- the full accounting -----

  /** `work`: floating point operations. */
  function FlopsOf(m: Model, k: Key): Flops {
    var g, i, t := m.geometry, k.identity, Tokens(k);
    Flops(2 * t * ProjectionWeights(m, i), 2 * t * AbsorptionWeights(m, i), CompressorOps(m, k),
          2 * t * IndexerProjection(m, i) + 2 * IndexerPairs(m, k) * (g.indexHeads * g.indexHeadDim), 2 * t * IndexerWeights(m, i),
          4 * i.heads * g.headDim * (WindowPart(m, k) + CompressedPart(m, k)))
  }

  function ActivationWidth(m: Model, i: Identity): int {
    var g := m.geometry;
    g.hidden + g.qLora + i.heads * g.headDim + g.headDim + Groups(m, i) * g.oLora
  }

  /** `work`: bytes moved. */
  function BytesOf(m: Model, k: Key): Bytes {
    var g, w, i, t := m.geometry, m.widths, k.identity, Tokens(k);
    Bytes(ProjectionWeights(m, i) as real * w.projection, AbsorptionWeights(m, i) as real * w.absorption,
          CompressorWeights(m, i) as real * w.compressor, IndexerProjection(m, i) as real * w.indexer, IndexerWeights(m, i) as real * w.bf16,
          t as real * ActivationWidth(m, i) as real * w.projection, t as real * (i.heads * g.ropeDim) as real * w.attention,
          (WindowPart(m, k) + CompressedPart(m, k)) as real * w.kvState,
          if Indexed(m, i) then (Batch(k) * CompressedLen(k)) as real * w.indexerState else 0.0)
  }

  function MathSeconds(f: Flops, r: Rates): real
    requires ValidRates(r)
  {
    f.projection as real / r.projection + f.absorption as real / r.absorption + f.compressor as real / r.compressor
    + f.indexer as real / r.indexer + f.indexerWeights as real / r.indexerWeights + f.attention as real / r.attention
  }

  function WeightBytes(b: Bytes): real {
    b.projectionWeights + b.absorptionWeights + b.compressorWeights + b.indexerProjectionWeights + b.indexerWeights
  }

  function MemorySeconds(b: Bytes, r: Rates): real
    requires ValidRates(r)
  {
    (WeightBytes(b) + b.activations + b.rope + b.attentionKv + b.indexerKv) / r.bandwidth
  }

  // ----- what does not depend on lengths -----

  const MICRO: real := 1000000.0

  datatype Constants = Constants(mathPerToken: real, weights: real, activationPerToken: real, attentionPerPair: real, indexerPerPair: real)

  /** One token of generation without context. */
  function Base(i: Identity): Key { Key(i, false, 1, 1, 0) }

  function ConstantsOf(m: Model, i: Identity): Constants
    requires ValidRates(m.rates)
  {
    var bytes := BytesOf(m, Base(i));
    Constants(MathSeconds(FlopsOf(m, Base(i)), m.rates) * MICRO, WeightBytes(bytes), bytes.activations + bytes.rope,
              (4 * i.heads * m.geometry.headDim) as real / m.rates.attention * MICRO,
              if Indexed(m, i) then (2 * m.geometry.indexHeads * m.geometry.indexHeadDim) as real / m.rates.indexer * MICRO else 0.0)
  }

  datatype Limits = Limits(mathUs: real, memoryUs: real, indexerBytes: real)

  /** The bounds of the full accounting. */
  function Bounds(m: Model, k: Key): Limits
    requires ValidRates(m.rates)
  {
    Limits(MathSeconds(FlopsOf(m, k), m.rates) * MICRO, MemorySeconds(BytesOf(m, k), m.rates) * MICRO, BytesOf(m, k).indexerKv)
  }

  /** The bounds from the constants, the number of tokens and the number of pairs. */
  function FromConstants(m: Model, k: Key, c: Constants): Limits
    requires ValidRates(m.rates)
  {
    var pairs := WindowPart(m, k) + CompressedPart(m, k);
    var t := Tokens(k) as real;
    var indexerBytes := if Indexed(m, k.identity) then (Batch(k) * CompressedLen(k)) as real * m.widths.indexerState else 0.0;
    Limits(c.mathPerToken * t + c.attentionPerPair * pairs as real + c.indexerPerPair * t * CompressedLen(k) as real,
           (c.weights + c.activationPerToken * t + pairs as real * m.widths.kvState + indexerBytes) / m.rates.bandwidth * MICRO,
           indexerBytes)
  }

  // ----- operations per token -----

  lemma {:induction false} BaseShape(m: Model, i: Identity)
    ensures Tokens(Base(i)) == 1 && CompressedLen(Base(i)) == 0 && WindowPart(m, Base(i)) + CompressedPart(m, Base(i)) == 0
  {
    if i.ratio > 1 { assert 0 / i.ratio == 0; }
  }

  lemma {:induction false} Scaled(t: int, per: int, rate: real)
    requires rate > 0.0
    ensures (t * per) as real / rate == t as real * (per as real / rate)
  {
    assert (t * per) as real == t as real * per as real;
  }

  lemma {:induction false} CompressorLinear(m: Model, k: Key)
    ensures CompressorOps(m, k) == Tokens(k) * (2 * CompressorWeights(m, k.identity) + CompressorPointwise(m, k.identity))
  {
    hide Tokens;
    var g, i, t := m.geometry, k.identity, Tokens(k);
    var a, b := 2 * g.hidden * KeyMultiplier(m, i) * g.headDim, KeyMultiplier(m, i) * g.headDim;
    var c, d := 2 * g.hidden * 2 * g.indexHeadDim, 2 * g.indexHeadDim;
    Gathered(t, a, b);
    Gathered(t, c, d);
    if i.ratio > 1 && Indexed(m, i) { assert t * (2 * (a + c) + (2 * b + 2 * d)) == t * (2 * a + 2 * b) + t * (2 * c + 2 * d); }
  }

  lemma {:induction false} Gathered(t: int, a: int, b: int)
    ensures 2 * t * a + 2 * t * b == t * (2 * a + 2 * b)
  {
  }

  /** Seconds of work per token, beside attention and index scoring. */
  function PerToken(m: Model, i: Identity): real
    requires ValidRates(m.rates)
  {
    (2 * ProjectionWeights(m, i)) as real / m.rates.projection + (2 * AbsorptionWeights(m, i)) as real / m.rates.absorption
    + (2 * CompressorWeights(m, i) + CompressorPointwise(m, i)) as real / m.rates.compressor
    + (2 * IndexerProjection(m, i)) as real / m.rates.indexer + (2 * IndexerWeights(m, i)) as real / m.rates.indexerWeights
  }

  function Scoring(m: Model, i: Identity): real
    requires ValidRates(m.rates)
  {
    (2 * m.geometry.indexHeads * m.geometry.indexHeadDim) as real / m.rates.indexer
  }

  function Attending(m: Model, i: Identity): real
    requires ValidRates(m.rates)
  {
    (4 * i.heads * m.geometry.headDim) as real / m.rates.attention
  }

  lemma {:induction false} IndexerSplit(t: int, w: int, pairs: int, heads: int, dim: int, rate: real)
    requires rate > 0.0
    ensures (2 * t * w + 2 * pairs * (heads * dim)) as real / rate == t as real * ((2 * w) as real / rate) + pairs as real * ((2 * heads * dim) as real / rate)
  {
    assert 2 * t * w == t * (2 * w);
    assert 2 * pairs * (heads * dim) == pairs * (2 * heads * dim);
    Scaled(t, 2 * w, rate);
    Scaled(pairs, 2 * heads * dim, rate);
  }

  lemma {:induction false} Doubled(t: int, w: int, rate: real)
    requires rate > 0.0
    ensures (2 * t * w) as real / rate == t as real * ((2 * w) as real / rate)
  {
    assert 2 * t * w == t * (2 * w);
    Scaled(t, 2 * w, rate);
  }

  lemma {:induction false} SumOfFive(t: real, a: real, b: real, c: real, d: real, e: real)
    ensures t * a + t * b + t * c + t * d + t * e == t * (a + b + c + d + e)
  {
  }

  /** All operations are per token, per pair attended to, or per pair scored. */
  lemma {:induction false} MathLinear(m: Model, k: Key)
    requires ValidRates(m.rates)
    ensures MathSeconds(FlopsOf(m, k), m.rates) ==
            Tokens(k) as real * PerToken(m, k.identity) + IndexerPairs(m, k) as real * Scoring(m, k.identity)
            + (WindowPart(m, k) + CompressedPart(m, k)) as real * Attending(m, k.identity)
  {
    hide ProjectionWeights, AbsorptionWeights, CompressorWeights, CompressorPointwise, CompressorOps, IndexerProjection, IndexerWeights,
      IndexerPairs, WindowPart, CompressedPart, Tokens;
    var g, i, t, r := m.geometry, k.identity, Tokens(k), m.rates;
    var pairs := WindowPart(m, k) + CompressedPart(m, k);
    Doubled(t, ProjectionWeights(m, i), r.projection);
    Doubled(t, AbsorptionWeights(m, i), r.absorption);
    CompressorLinear(m, k);
    Scaled(t, 2 * CompressorWeights(m, i) + CompressorPointwise(m, i), r.compressor);
    IndexerSplit(t, IndexerProjection(m, i), IndexerPairs(m, k), g.indexHeads, g.indexHeadDim, r.indexer);
    Doubled(t, IndexerWeights(m, i), r.indexerWeights);
    assert 4 * i.heads * g.headDim * pairs == pairs * (4 * i.heads * g.headDim);
    Scaled(pairs, 4 * i.heads * g.headDim, r.attention);
    SumOfFive(t as real, (2 * ProjectionWeights(m, i)) as real / r.projection, (2 * AbsorptionWeights(m, i)) as real / r.absorption,
              (2 * CompressorWeights(m, i) + CompressorPointwise(m, i)) as real / r.compressor,
              (2 * IndexerProjection(m, i)) as real / r.indexer, (2 * IndexerWeights(m, i)) as real / r.indexerWeights);
  }

  lemma {:induction false} BaseMath(m: Model, i: Identity)
    requires ValidRates(m.rates)
    ensures MathSeconds(FlopsOf(m, Base(i)), m.rates) == PerToken(m, i)
  {
    hide MathSeconds, FlopsOf, PerToken, Scoring, Attending, WindowPart, CompressedPart, Tokens, CompressedLen;
    MathLinear(m, Base(i));
    BaseShape(m, i);
  }

  lemma {:induction false} Spread(t: real, pairs: real, len: real, per: real, scoring: real, attending: real, micro: real)
    ensures (per * micro) * t + (attending * micro) * pairs + (scoring * micro) * t * len ==
            (t * per + (t * len) * scoring + pairs * attending) * micro
  {
  }

  lemma {:induction false} MathAgrees(m: Model, k: Key)
    requires ValidRates(m.rates)
    ensures FromConstants(m, k, ConstantsOf(m, k.identity)).mathUs == Bounds(m, k).mathUs
  {
    hide MathSeconds, FlopsOf, BytesOf, PerToken, WindowPart, CompressedPart, Tokens, CompressedLen, Batch;
    var i, t, len, pairs := k.identity, Tokens(k), CompressedLen(k), WindowPart(m, k) + CompressedPart(m, k);
    MathLinear(m, k);
    BaseMath(m, i);
    assert (t * len) as real == t as real * len as real;
    Spread(t as real, pairs as real, len as real, PerToken(m, i), if Indexed(m, i) then Scoring(m, i) else 0.0, Attending(m, i), MICRO);
  }

  lemma {:induction false} BaseBytes(m: Model, k: Key)
    ensures WeightBytes(BytesOf(m, Base(k.identity))) == WeightBytes(BytesOf(m, k))
    ensures var base := BytesOf(m, Base(k.identity));
      (base.activations + base.rope) * Tokens(k) as real == BytesOf(m, k).activations + BytesOf(m, k).rope
  {
    hide ProjectionWeights, AbsorptionWeights, CompressorWeights, IndexerProjection, IndexerWeights, ActivationWidth, WindowPart, CompressedPart,
      Tokens, CompressedLen, Batch;
    BaseShape(m, k.identity);
    var i, g, w, t := k.identity, m.geometry, m.widths, Tokens(k) as real;
    PerTokenBytes(t, ActivationWidth(m, i) as real, w.projection, (i.heads * g.ropeDim) as real, w.attention);
  }

  lemma {:induction false} PerTokenBytes(t: real, a: real, v: real, b: real, w: real)
    ensures (1.0 * a * v + 1.0 * b * w) * t == t * a * v + t * b * w
  {
  }

  lemma {:induction false} MemoryAgrees(m: Model, k: Key)
    requires ValidRates(m.rates)
    ensures FromConstants(m, k, ConstantsOf(m, k.identity)).memoryUs == Bounds(m, k).memoryUs
    ensures FromConstants(m, k, ConstantsOf(m, k.identity)).indexerBytes == Bounds(m, k).indexerBytes
  {
    hide MathSeconds, FlopsOf, WindowPart, CompressedPart, Tokens, CompressedLen, Batch, WeightBytes, ProjectionWeights, AbsorptionWeights,
      CompressorWeights, IndexerProjection, IndexerWeights, ActivationWidth;
    BaseBytes(m, k);
  }

  /** The bounds from the memoised constants are those of the full accounting. */
  lemma {:induction false} ConstantsSuffice(m: Model, k: Key)
    requires ValidRates(m.rates)
    ensures FromConstants(m, k, ConstantsOf(m, k.identity)) == Bounds(m, k)
  {
    hide ConstantsOf, Bounds, FromConstants;
    MathAgrees(m, k);
    MemoryAgrees(m, k);
  }

  // ----- the memo -----

  class CompressedAttention {
    const model: Model
    var growth: map<Identity, Constants>

    constructor (m: Model)
      ensures model == m && Remembers()
    {
      model, growth := m, map[];
    }

    /** Every remembered entry holds the constants of its identity. */
    ghost predicate Remembers()
      reads this
    {
      ValidRates(model.rates) ==> forall i :: i in growth ==> growth[i] == ConstantsOf(model, i)
    }

    /** `limits_us` gives the bounds of the full accounting, whatever has been asked before. */
    method LimitsUs(k: Key) returns (limits: Limits)
      requires ValidRates(model.rates) && Remembers()
      modifies this`growth
      ensures Remembers() && limits == Bounds(model, k)
    {
      hide ConstantsOf, Bounds, FromConstants;
      if k.identity !in growth { growth := growth[k.identity := ConstantsOf(model, k.identity)]; }
      ConstantsSuffice(model, k);
      limits := FromConstants(model, k, growth[k.identity]);
    }
  }
}
