/** Input layout, local reduce-scatter per destination node, reduce-scatter between nodes. */
module HierarchicalReduceScatter {
  import opened Common
  import opened TrafficTypes
  import opened RingSemantics
  import opened RingCorrectness
  import opened RingResults
  import opened CollectivePlan
  import opened PlanSemantics
  import opened Stages
  import opened Grouping
  import opened Grid
  import opened HierarchicalAllGather

  /** Every participant ends with `unit` bytes. */
  datatype ScatterJob = ScatterJob(ranks: seq<Rank>, groups: seq<seq<Rank>>, local: nat, unit: nat, bytes: nat,
                                   nodeOf: map<Rank, Node>, inputs: Buffers, blank: Cell)

  ghost predicate ValidScatter(j: ScatterJob) {
    && IsGrid(j.ranks, j.groups, j.local) && Peopled(j.groups)
    && Sized(j.inputs, j.ranks, j.bytes)
    && j.bytes == |j.ranks| * j.unit
  }

  function NodeShare(j: ScatterJob): nat {
    MulNonNegative(j.local, j.unit);
    j.local * j.unit
  }

  function SlotShare(j: ScatterJob): nat {
    MulNonNegative(|j.groups|, j.unit);
    |j.groups| * j.unit
  }

  function Grouped(j: ScatterJob): seq<Rank> {
    Flatten(j.groups, |j.groups|)
  }

  predicate Reorder(j: ScatterJob) {
    Grouped(j) != j.ranks && j.bytes > 0
  }

  function InputPermutation(j: ScatterJob): (permutation: seq<nat>)
    ensures |permutation| == |Grouped(j)|
  {
    Positions(j.ranks, Grouped(j), |Grouped(j)|)
  }

  function Stage0(j: ScatterJob): seq<TrafficPhase> {
    if Reorder(j) then InputLayoutPhases(j.groups, j.bytes, InputPermutation(j), |j.groups|) else []
  }

  function Stage1(j: ScatterJob): seq<TrafficPhase>
    requires Peopled(j.groups)
  {
    AllLocalRsToPhases(j.groups, NodeShare(j), j.nodeOf, Reorder(j), |j.groups|)
  }

  function Stage2(j: ScatterJob): seq<TrafficPhase>
    requires |j.groups| >= 1
  {
    InterRsPhases(j.groups, SlotShare(j), j.nodeOf, j.local)
  }

  // ----- the phases one by one -----

  lemma {:induction false} InputLayoutAt(groups: seq<seq<Rank>>, bytes: nat, permutation: seq<nat>, n: nat, g: nat)
    requires n <= |groups|
    ensures |InputLayoutPhases(groups, bytes, permutation, n)| == n
    ensures g < n ==> InputLayoutPhases(groups, bytes, permutation, n)[g] ==
                      TrafficPhase(InputLayout(g), DataReorder, groups[g], bytes, [], [], permutation)
    decreases n
  {
    if n > 0 { InputLayoutAt(groups, bytes, permutation, n - 1, g); }
  }

  function Waits(reorder: bool, g: nat): seq<PhaseId> {
    if reorder then [InputLayout(g)] else []
  }

  lemma {:induction false} LocalRsToAt(group: seq<Rank>, g: nat, bytes: nat, nodeOf: map<Rank, Node>, reorder: bool, n: nat, d: nat)
    requires |group| >= 1
    ensures |LocalRsToPhases(group, g, bytes, nodeOf, reorder, n)| == n
    ensures d < n ==> LocalRsToPhases(group, g, bytes, nodeOf, reorder, n)[d] ==
                      RingPhase(LocalRsTo(g, d), ReduceScatter, group, bytes, nodeOf, Waits(reorder, g))
    decreases n
  {
    hide RingPhase;
    if n > 0 { LocalRsToAt(group, g, bytes, nodeOf, reorder, n - 1, d); }
  }

  lemma {:induction false} AllLocalRsToAt(groups: seq<seq<Rank>>, bytes: nat, nodeOf: map<Rank, Node>, reorder: bool,
                                          n: nat, g: nat, d: nat)
    requires n <= |groups| && Peopled(groups)
    ensures |AllLocalRsToPhases(groups, bytes, nodeOf, reorder, n)| == n * |groups|
    ensures g < n && d < |groups| ==>
      && Offset(g, |groups|, d) < n * |groups|
      && AllLocalRsToPhases(groups, bytes, nodeOf, reorder, n)[Offset(g, |groups|, d)] ==
         RingPhase(LocalRsTo(g, d), ReduceScatter, groups[g], bytes, nodeOf, Waits(reorder, g))
    decreases n
  {
    hide RingPhase;
    if n > 0 {
      AllLocalRsToAt(groups, bytes, nodeOf, reorder, n - 1, g, d);
      LocalRsToAt(groups[n - 1], n - 1, bytes, nodeOf, reorder, |groups|, d);
      assert n * |groups| == (n - 1) * |groups| + |groups|;
      if g < n - 1 && d < |groups| { MulMono(g + 1, n - 1, |groups|); }
    }
  }

  lemma {:induction false} InterRsAt(groups: seq<seq<Rank>>, bytes: nat, nodeOf: map<Rank, Node>, n: nat, s: nat)
    requires |groups| >= 1
    ensures |InterRsPhases(groups, bytes, nodeOf, n)| == n
    ensures s < n ==> InterRsPhases(groups, bytes, nodeOf, n)[s] ==
                      RingPhase(InterRs(s), ReduceScatter, Slot(groups, s, |groups|), bytes, nodeOf,
                                AllLocalRsToIds(|groups|, |groups|))
    decreases n
  {
    hide RingPhase;
    if n > 0 { InterRsAt(groups, bytes, nodeOf, n - 1, s); }
  }

  lemma {:induction false} LocalRsToIdAt(g: nat, n: nat, d: nat)
    requires d < n
    ensures LocalRsToIds(g, n)[d] == LocalRsTo(g, d)
    decreases n
  {
    if d < n - 1 { LocalRsToIdAt(g, n - 1, d); }
  }

  lemma {:induction false} AllIdsHave(n: nat, m: nat, g: nat, d: nat)
    requires g < n && d < m
    ensures LocalRsTo(g, d) in AllLocalRsToIds(n, m)
    decreases n
  {
    if g < n - 1 {
      AllIdsHave(n - 1, m, g, d);
    } else {
      LocalRsToIdAt(g, m, d);
      assert LocalRsTo(g, d) in LocalRsToIds(g, m);
    }
  }

  lemma {:induction false} OnlyLocalRsTo(n: nat, m: nat, id: PhaseId)
    ensures id in AllLocalRsToIds(n, m) ==> id.LocalRsTo?
    decreases n
  {
    if n > 0 {
      OnlyLocalRsTo(n - 1, m, id);
      OnlyLocalRsToOf(n - 1, m, id);
    }
  }

  lemma {:induction false} OnlyLocalRsToOf(g: nat, m: nat, id: PhaseId)
    ensures id in LocalRsToIds(g, m) ==> id.LocalRsTo?
  {
    if m > 0 { OnlyLocalRsToOf(g, m - 1, id); }
  }

  // ----- the input layout -----

  function Base0(j: ScatterJob): Results {
    Run(Stage0(j), map[], j.inputs, j.blank)
  }

  /** What rank `r` feeds into the local reduce-scatters. */
  function Laid(j: ScatterJob, r: Rank): Buffer {
    if Reorder(j) then Permuted(Of(j.inputs, r), InputPermutation(j), j.unit, |Grouped(j)|) else Of(j.inputs, r)
  }

  lemma {:induction false} GroupedSize(j: ScatterJob)
    requires ValidScatter(j)
    ensures |Grouped(j)| == |j.ranks| == |j.groups| * j.local
  {
    FlattenAt(j.groups, j.local, |j.groups|, 0, 0);
    GridCount(j.ranks, j.groups, j.local);
  }

  lemma {:induction false} Stage0Independent(j: ScatterJob, g: nat)
    requires Reorder(j) && g < |j.groups|
    ensures Independent(Stage0(j), g)
    ensures Stage0(j)[g] == TrafficPhase(InputLayout(g), DataReorder, j.groups[g], j.bytes, [], [], InputPermutation(j))
  {
    forall k | 0 <= k < |Stage0(j)| ensures Stage0(j)[k].id == InputLayout(k) && |Stage0(j)| == |j.groups| {
      InputLayoutAt(j.groups, j.bytes, InputPermutation(j), |j.groups|, k);
    }
    InputLayoutAt(j.groups, j.bytes, InputPermutation(j), |j.groups|, g);
  }

  lemma {:induction false} AfterLayout(j: ScatterJob, g: nat, r: Rank)
    requires ValidScatter(j) && Reorder(j) && g < |j.groups| && r in j.groups[g]
    ensures Of(ResultOf(Base0(j), InputLayout(g)), r) == Laid(j, r)
  {
    Stage0Independent(j, g);
    StageResult(Stage0(j), map[], j.inputs, j.blank, g);
    InputAt(Stage0(j)[g], map[], j.inputs, r);
    GroupedSize(j);
    assert |j.ranks| >= 1;
    ExactQuotient(|j.ranks|, j.unit);
  }

  lemma {:induction false} PermutedLength(data: Buffer, permutation: seq<nat>, width: nat, n: nat)
    requires n <= |permutation|
    ensures |Permuted(data, permutation, width, n)| == n * width
    decreases n
  {
    if n > 0 {
      PermutedLength(data, permutation, width, n - 1);
      assert n * width == (n - 1) * width + width;
    }
  }

  lemma {:induction false} PermutedWindow(data: Buffer, permutation: seq<nat>, width: nat, n: nat, x: nat, q: nat)
    requires x < n <= |permutation| && q < width
    ensures At(Permuted(data, permutation, width, n), Offset(x, width, q)) == At(data, Offset(permutation[x], width, q))
    decreases n
  {
    PermutedLength(data, permutation, width, n - 1);
    if x < n - 1 {
      PermutedWindow(data, permutation, width, n - 1, x, q);
      MulMono(x + 1, n - 1, width);
      assert (x + 1) * width == x * width + width;
    } else {
      assert Window(data, permutation[x], width)[q] == At(data, Offset(permutation[x], width, q));
    }
  }

  /** The block a local reduce-scatter reads for slot `s` of destination `d` is that rank's own block. */
  lemma {:induction false} LaidBlock(j: ScatterJob, r: Rank, d: nat, s: nat, q: nat)
    requires ValidScatter(j) && r in j.ranks && d < |j.groups| && s < j.local && q < j.unit
    ensures At(Laid(j, r), Offset(Offset(d, j.local, s), j.unit, q)) ==
            At(Of(j.inputs, r), Offset(Position(j.ranks, j.groups[d][s]), j.unit, q))
  {
    var x := Offset(d, j.local, s);
    FlattenAt(j.groups, j.local, |j.groups|, d, s);
    GroupedSize(j);
    if Reorder(j) {
      PermutedWindow(Of(j.inputs, r), InputPermutation(j), j.unit, |Grouped(j)|, x, q);
      PositionAt(j.ranks, Grouped(j), |Grouped(j)|, x);
    } else {
      assert j.bytes > 0 by { MulMono(1, |j.ranks|, j.unit); }
      DistinctAt(j.ranks, IndexOf(j.ranks, j.ranks[x]), x);
    }
  }

  // ----- after the local reduce-scatters -----

  lemma {:induction false} Stage1Phase(j: ScatterJob, g: nat, d: nat)
    requires Peopled(j.groups) && g < |j.groups| && d < |j.groups|
    ensures Offset(g, |j.groups|, d) < |Stage1(j)| == |j.groups| * |j.groups|
    ensures Stage1(j)[Offset(g, |j.groups|, d)] ==
            RingPhase(LocalRsTo(g, d), ReduceScatter, j.groups[g], NodeShare(j), j.nodeOf, Waits(Reorder(j), g))
  {
    AllLocalRsToAt(j.groups, NodeShare(j), j.nodeOf, Reorder(j), |j.groups|, g, d);
  }

  lemma {:induction false} Stage1Independent(j: ScatterJob, g: nat, d: nat)
    requires Peopled(j.groups) && g < |j.groups| && d < |j.groups|
    ensures Independent(Stage1(j), Offset(g, |j.groups|, d))
  {
    var n, k := |j.groups|, Offset(g, |j.groups|, d);
    Stage1Phase(j, g, d);
    forall i | 0 <= i < |Stage1(j)|
      ensures Stage1(j)[i].id.LocalRsTo? && (i != k ==> Stage1(j)[i].id != LocalRsTo(g, d))
    {
      var h, e := SplitBlock(i, n, n);
      Stage1Phase(j, h, e);
    }
  }

  function Base1(j: ScatterJob): Results
    requires Peopled(j.groups)
  {
    Run(Stage1(j), Base0(j), j.inputs, j.blank)
  }

  function Stage1Fed(j: ScatterJob, g: nat, d: nat): Buffers
    requires Peopled(j.groups) && Independent(Stage1(j), Offset(g, |j.groups|, d))
  {
    PhaseInputs(Stage1(j)[Offset(g, |j.groups|, d)], Base0(j), j.inputs)
  }

  lemma {:induction false} Stage1Inputs(j: ScatterJob, g: nat, d: nat, r: Rank)
    requires ValidScatter(j) && g < |j.groups| && d < |j.groups| && r in j.groups[g]
    requires Independent(Stage1(j), Offset(g, |j.groups|, d))
    ensures Of(Stage1Fed(j, g, d), r) == Window(Laid(j, r), d, NodeShare(j))
  {
    Stage1Phase(j, g, d);
    InputAt(Stage1(j)[Offset(g, |j.groups|, d)], Base0(j), j.inputs, r);
    if Reorder(j) {
      SingleJoin(Base0(j), InputLayout(g), r);
      AfterLayout(j, g, r);
    }
  }

  lemma {:induction false} FedByte(j: ScatterJob, g: nat, d: nat, s: nat, q: nat, r: Rank)
    requires ValidScatter(j) && g < |j.groups| && d < |j.groups| && s < j.local && q < j.unit && r in j.groups[g]
    requires Independent(Stage1(j), Offset(g, |j.groups|, d))
    ensures At(Of(Stage1Fed(j, g, d), r), Offset(s, j.unit, q)) ==
            At(Of(j.inputs, r), Offset(Position(j.ranks, j.groups[d][s]), j.unit, q))
  {
    Stage1Inputs(j, g, d, r);
    var t :| 0 <= t < |j.groups[g]| && j.groups[g][t] == r;
    PlaceInside(j.ranks, j.groups, j.local, g, t);
    LaidBlock(j, r, d, s, q);
    NestedOffset(d, j.local, s, j.unit, NodeShare(j), q);
  }

  lemma {:induction false} Stage1Sized(j: ScatterJob, g: nat, d: nat)
    requires ValidScatter(j) && g < |j.groups| && d < |j.groups|
    requires Independent(Stage1(j), Offset(g, |j.groups|, d))
    ensures Sized(Stage1Fed(j, g, d), j.groups[g], NodeShare(j))
  {
    Stage1Phase(j, g, d);
    var fed := Stage1Fed(j, g, d);
    forall r | r in j.groups[g] ensures r in fed && |fed[r]| == NodeShare(j) {
      Stage1Inputs(j, g, d, r);
    }
  }

  lemma {:induction false} Stage1Total(j: ScatterJob, g: nat, d: nat, s: nat)
    requires ValidScatter(j) && g < |j.groups| && d < |j.groups| && s < j.local
    requires Independent(Stage1(j), Offset(g, |j.groups|, d))
    ensures ReducedShard(Stage1Fed(j, g, d), j.groups[g], s, j.unit) ==
            ReducedShard(j.inputs, j.groups[g], Position(j.ranks, j.groups[d][s]), j.unit)
  {
    var fed, x := Stage1Fed(j, g, d), Position(j.ranks, j.groups[d][s]);
    forall q | 0 <= q < j.unit ensures SameByte(fed, j.groups[g], s, j.inputs, j.groups[g], x, j.unit, q) {
      forall r | r in j.groups[g]
        ensures At(Of(fed, r), Offset(s, j.unit, q)) == At(Of(j.inputs, r), Offset(x, j.unit, q))
      {
        FedByte(j, g, d, s, q, r);
      }
      MovedTotal(fed, Offset(s, j.unit, q), j.inputs, Offset(x, j.unit, q), j.groups[g]);
    }
    ShardsAgree(fed, j.groups[g], s, j.inputs, j.groups[g], x, j.unit);
  }

  lemma {:induction false} MovedTotal(a: Buffers, p: nat, b: Buffers, q: nat, ranks: seq<Rank>)
    requires forall r :: r in ranks ==> At(Of(a, r), p) == At(Of(b, r), q)
    ensures Total(a, ranks, p) == Total(b, ranks, q)
  {
    if ranks != [] { MovedTotal(a, p, b, q, ranks[..|ranks| - 1]); }
  }

  /** After the local reduce-scatter towards node `d`, slot `s` of node `g` holds node `g`'s sum of
      the shard that belongs to slot `s` of node `d`. */
  lemma {:induction false} AfterLocal(j: ScatterJob, g: nat, d: nat, s: nat)
    requires ValidScatter(j) && g < |j.groups| && d < |j.groups| && s < j.local
    ensures ResultOf(Base1(j), LocalRsTo(g, d)).Keys == set r | r in j.groups[g]
    ensures Of(ResultOf(Base1(j), LocalRsTo(g, d)), j.groups[g][s]) ==
            ReducedShard(j.inputs, j.groups[g], Position(j.ranks, j.groups[d][s]), j.unit)
  {
    Stage1Phase(j, g, d);
    Stage1Independent(j, g, d);
    StageResult(Stage1(j), Base0(j), j.inputs, j.blank, Offset(g, |j.groups|, d));
    Stage1Sized(j, g, d);
    GroupDistinct(j.ranks, j.groups, j.local, g);
    ScatterPhase(LocalRsTo(g, d), j.groups[g], NodeShare(j), j.nodeOf, Waits(Reorder(j), g), j.unit,
                 Stage1Fed(j, g, d), j.blank, s);
    Stage1Total(j, g, d, s);
  }

  // ----- after the reduce-scatters between nodes -----

  lemma {:induction false} Stage2Independent(j: ScatterJob, s: nat)
    requires |j.groups| >= 1 && s < j.local
    ensures Independent(Stage2(j), s)
    ensures Stage2(j)[s] == RingPhase(InterRs(s), ReduceScatter, Slot(j.groups, s, |j.groups|), SlotShare(j), j.nodeOf,
                                      AllLocalRsToIds(|j.groups|, |j.groups|))
  {
    forall k | 0 <= k < |Stage2(j)|
      ensures Stage2(j)[k].id == InterRs(k) && |Stage2(j)| == j.local
      ensures Stage2(j)[k].id !in AllLocalRsToIds(|j.groups|, |j.groups|)
    {
      InterRsAt(j.groups, SlotShare(j), j.nodeOf, j.local, k);
      OnlyLocalRsTo(|j.groups|, |j.groups|, InterRs(k));
    }
    InterRsAt(j.groups, SlotShare(j), j.nodeOf, j.local, s);
  }

  function Base2(j: ScatterJob): Results
    requires Peopled(j.groups) && |j.groups| >= 1
  {
    Run(Stage2(j), Base1(j), j.inputs, j.blank)
  }

  lemma {:induction false} AppendedAt(a: Buffer, b: Buffer, n: nat, width: nat, d: nat, q: nat)
    requires |a| == n * width && |b| == width
    ensures |a + b| == (n + 1) * width
    ensures d <= n && q < width ==>
      At(a + b, Offset(d, width, q)) == if d < n then At(a, Offset(d, width, q)) else b[q]
  {
    assert (n + 1) * width == n * width + width;
    if d < n && q < width {
      MulMono(d + 1, n, width);
      assert (d + 1) * width == d * width + width;
    }
  }

  /** What slot `s` of node `g` has collected for the first `n` destination nodes. */
  function Collected1(j: ScatterJob, g: nat, s: nat, n: nat): Buffer
    requires Peopled(j.groups)
  {
    Joined(Base1(j), LocalRsToIds(g, n), Member(j.groups, g, s), n)
  }

  lemma {:induction false} CollectOne(j: ScatterJob, g: nat, s: nat, n: nat)
    requires ValidScatter(j) && g < |j.groups| && s < j.local && n < |j.groups|
    ensures Collected1(j, g, s, n + 1) ==
            Collected1(j, g, s, n) + ReducedShard(j.inputs, j.groups[g], Position(j.ranks, j.groups[n][s]), j.unit)
  {
    JoinedAppend(Base1(j), LocalRsToIds(g, n), LocalRsTo(g, n), j.groups[g][s]);
    AfterLocal(j, g, n, s);
    ThenIsConcat(Collected1(j, g, s, n), ReducedShard(j.inputs, j.groups[g], Position(j.ranks, j.groups[n][s]), j.unit));
  }

  lemma {:induction false} CollectLength(j: ScatterJob, g: nat, s: nat, n: nat)
    requires ValidScatter(j) && g < |j.groups| && s < j.local && n < |j.groups|
    ensures |Collected1(j, g, s, n + 1)| == |Collected1(j, g, s, n)| + j.unit
  {
    CollectOne(j, g, s, n);
  }

  lemma {:induction false} OneMoreUnit(n: nat, width: nat)
    requires n > 0
    ensures n * width == (n - 1) * width + width
  {
  }

  lemma {:induction false} ScatterPeopled(j: ScatterJob)
    requires ValidScatter(j)
    ensures Peopled(j.groups)
  {
  }

  lemma {:induction false} CollectNone(j: ScatterJob, g: nat, s: nat)
    requires Peopled(j.groups)
    ensures |Collected1(j, g, s, 0)| == 0
  {
  }

  lemma {:induction false} OwnLength(j: ScatterJob, g: nat, s: nat, n: nat)
    requires ValidScatter(j) && g < |j.groups| && s < j.local && n <= |j.groups|
    ensures |Collected1(j, g, s, n)| == n * j.unit
    decreases n
  {
    hide ValidScatter, Collected1;
    ScatterPeopled(j);
    if n > 0 {
      OwnLength(j, g, s, n - 1);
      CollectLength(j, g, s, n - 1);
      OneMoreUnit(n, j.unit);
    } else {
      CollectNone(j, g, s);
    }
  }

  /** Byte `q` of the shard collected for node `d`. */
  function ShardByte(j: ScatterJob, g: nat, d: nat, s: nat, q: nat): Cell
    requires g < |j.groups|
  {
    Total(j.inputs, j.groups[g], Offset(Position(j.ranks, Member(j.groups, d, s)), j.unit, q))
  }

  lemma {:induction false} OwnShards(j: ScatterJob, g: nat, s: nat, n: nat, d: nat, q: nat)
    requires ValidScatter(j) && g < |j.groups| && s < j.local && d < n <= |j.groups| && q < j.unit
    ensures At(Collected1(j, g, s, n), Offset(d, j.unit, q)) == ShardByte(j, g, d, s, q)
    decreases n
  {
    var shard := ReducedShard(j.inputs, j.groups[g], Position(j.ranks, j.groups[n - 1][s]), j.unit);
    OwnLength(j, g, s, n - 1);
    CollectOne(j, g, s, n - 1);
    AppendedAt(Collected1(j, g, s, n - 1), shard, n - 1, j.unit, d, q);
    if d < n - 1 {
      OwnShards(j, g, s, n - 1, d, q);
    } else {
      assert shard[q] == ShardByte(j, g, d, s, q);
    }
  }

  lemma {:induction false} OtherShards(j: ScatterJob, g: nat, s: nat, h: nat, n: nat)
    requires ValidScatter(j) && g < |j.groups| && s < j.local && h < |j.groups| && h != g && n <= |j.groups|
    ensures Joined(Base1(j), LocalRsToIds(h, n), j.groups[g][s], n) == []
    decreases n
  {
    if n > 0 {
      OtherShards(j, g, s, h, n - 1);
      JoinedAppend(Base1(j), LocalRsToIds(h, n - 1), LocalRsTo(h, n - 1), j.groups[g][s]);
      AfterLocal(j, h, n - 1, 0);
      if j.groups[g][s] in j.groups[h] {
        var t :| 0 <= t < |j.groups[h]| && j.groups[h][t] == j.groups[g][s];
        PlacesDiffer(j.ranks, j.groups, j.local, g, s, h, t);
      }
    }
  }

  function JoinedAll(done: Results, r: Rank, m: nat, n: nat): Buffer {
    var ids := AllLocalRsToIds(n, m);
    Joined(done, ids, r, |ids|)
  }

  lemma {:induction false} JoinStep(done: Results, r: Rank, m: nat, n: nat)
    ensures JoinedAll(done, r, m, n + 1) == Then(JoinedAll(done, r, m, n), Joined(done, LocalRsToIds(n, m), r, m))
  {
    JoinedConcat(done, AllLocalRsToIds(n, m), LocalRsToIds(n, m), r, m);
  }

  lemma {:induction false} JoinGroups(done: Results, r: Rank, m: nat, g: nat, n: nat)
    requires forall h :: 0 <= h < n && h != g ==> Uninvolved(done, r, m, h)
    ensures JoinedAll(done, r, m, n) == if g < n then Joined(done, LocalRsToIds(g, m), r, m) else []
    decreases n
  {
    if n == 0 {
      assert AllLocalRsToIds(0, m) == [];
    } else {
      JoinGroups(done, r, m, g, n - 1);
      JoinStep(done, r, m, n - 1);
      assert n - 1 != g ==> Uninvolved(done, r, m, n - 1);
    }
  }

  /** The local reduce-scatters of group `h` leave nothing on `r`. */
  ghost predicate Uninvolved(done: Results, r: Rank, m: nat, h: nat) {
    Joined(done, LocalRsToIds(h, m), r, m) == []
  }

  lemma {:induction false} Stage2Inputs(j: ScatterJob, g: nat, s: nat)
    requires ValidScatter(j) && g < |j.groups| && s < j.local && Independent(Stage2(j), s)
    ensures j.groups[g][s] in PhaseInputs(Stage2(j)[s], Base1(j), j.inputs)
    ensures Of(PhaseInputs(Stage2(j)[s], Base1(j), j.inputs), j.groups[g][s]) == Collected1(j, g, s, |j.groups|)
  {
    Stage2Independent(j, s);
    SlotAt(j.groups, s, |j.groups|, g);
    InputAt(Stage2(j)[s], Base1(j), j.inputs, j.groups[g][s]);
    var done, r := Base1(j), j.groups[g][s];
    forall h | 0 <= h < |j.groups| && h != g ensures Uninvolved(done, r, |j.groups|, h) {
      OtherShards(j, g, s, h, |j.groups|);
    }
    JoinGroups(done, r, |j.groups|, g, |j.groups|);
    AllIdsHave(|j.groups|, |j.groups|, 0, 0);
  }

  lemma {:induction false} Stage2Sized(j: ScatterJob, s: nat)
    requires ValidScatter(j) && s < j.local && Independent(Stage2(j), s)
    ensures Sized(PhaseInputs(Stage2(j)[s], Base1(j), j.inputs), Slot(j.groups, s, |j.groups|), SlotShare(j))
  {
    var slot, fed := Slot(j.groups, s, |j.groups|), PhaseInputs(Stage2(j)[s], Base1(j), j.inputs);
    forall r | r in slot ensures r in fed && |fed[r]| == SlotShare(j) {
      var g :| 0 <= g < |slot| && slot[g] == r;
      SlotAt(j.groups, s, |j.groups|, g);
      Stage2Inputs(j, g, s);
      OwnLength(j, g, s, |j.groups|);
    }
  }

  lemma {:induction false} Stage2Byte(j: ScatterJob, g: nat, s: nat, q: nat, fed: Buffers)
    requires ValidScatter(j) && g < |j.groups| && s < j.local && q < j.unit && Independent(Stage2(j), s)
    requires fed == PhaseInputs(Stage2(j)[s], Base1(j), j.inputs)
    ensures SameByte(fed, Slot(j.groups, s, |j.groups|), g, j.inputs, j.ranks, Position(j.ranks, j.groups[g][s]), j.unit, q)
  {
    var x := Offset(Position(j.ranks, j.groups[g][s]), j.unit, q);
    forall h | 0 <= h < |j.groups| ensures HoldsTotal(fed, Offset(g, j.unit, q), j.inputs, j.groups, s, h, x) {
      Stage2Inputs(j, h, s);
      OwnShards(j, h, s, |j.groups|, g, q);
    }
    SlotTotal(fed, Offset(g, j.unit, q), j.inputs, j.groups, s, |j.groups|, x);
    GridTotal(j.inputs, j.ranks, j.groups, j.local, x);
  }

  /** After the reduce-scatter between nodes every rank holds its own fully reduced shard. */
  lemma {:induction false} AfterInter(j: ScatterJob, g: nat, s: nat)
    requires ValidScatter(j) && g < |j.groups| && s < j.local
    ensures ResultOf(Base2(j), InterRs(s)).Keys == set r | r in Slot(j.groups, s, |j.groups|)
    ensures Of(ResultOf(Base2(j), InterRs(s)), j.groups[g][s]) ==
            ReducedShard(j.inputs, j.ranks, Position(j.ranks, j.groups[g][s]), j.unit)
  {
    Stage2Independent(j, s);
    var slot, fed := Slot(j.groups, s, |j.groups|), PhaseInputs(Stage2(j)[s], Base1(j), j.inputs);
    StageResult(Stage2(j), Base1(j), j.inputs, j.blank, s);
    Stage2Sized(j, s);
    SlotDistinct(j.ranks, j.groups, j.local, s);
    SlotAt(j.groups, s, |j.groups|, g);
    ScatterPhase(InterRs(s), slot, SlotShare(j), j.nodeOf, AllLocalRsToIds(|j.groups|, |j.groups|), j.unit, fed, j.blank, g);
    forall q | 0 <= q < j.unit
      ensures SameByte(fed, slot, g, j.inputs, j.ranks, Position(j.ranks, j.groups[g][s]), j.unit, q)
    {
      Stage2Byte(j, g, s, q, fed);
    }
    ShardsAgree(fed, slot, g, j.inputs, j.ranks, Position(j.ranks, j.groups[g][s]), j.unit);
  }

  // ----- the whole plan -----

  function ScatterPhases(j: ScatterJob): seq<TrafficPhase>
    requires Peopled(j.groups) && |j.groups| >= 1
  {
    Stage0(j) + Stage1(j) + Stage2(j)
  }

  /** Layout phases, then `n * n` local ones, then one per slot. */
  ghost predicate ScatterShape(phases: seq<TrafficPhase>, n: nat, local: nat, layouts: nat, wide: nat) {
    && wide == layouts + n * n
    && |phases| == wide + local
    && forall k :: 0 <= k < |phases| ==> ScatterShapeAt(phases, n, layouts, wide, k)
  }

  ghost predicate ScatterShapeAt(phases: seq<TrafficPhase>, n: nat, layouts: nat, wide: nat, k: nat) {
    && k < |phases|
    && (k < layouts ==> phases[k].id == InputLayout(k) && phases[k].predecessors == [])
    && (layouts <= k < wide ==>
          && phases[k].id.LocalRsTo? && phases[k].id.group < n && phases[k].id.destination < n
          && phases[k].predecessors == Waits(layouts > 0, phases[k].id.group))
    && (wide <= k ==> phases[k].id == InterRs(k - wide) && phases[k].predecessors == AllLocalRsToIds(n, n))
  }

  lemma {:induction false} Stage1Kind(j: ScatterJob, i: nat)
    requires Peopled(j.groups) && |j.groups| >= 1 && i < |j.groups| * |j.groups|
    ensures |Stage1(j)| == |j.groups| * |j.groups|
    ensures Stage1(j)[i].id.LocalRsTo? && Stage1(j)[i].id.group < |j.groups| && Stage1(j)[i].id.destination < |j.groups|
    ensures Stage1(j)[i].predecessors == Waits(Reorder(j), Stage1(j)[i].id.group)
  {
    var g, d := SplitBlock(i, |j.groups|, |j.groups|);
    Stage1Phase(j, g, d);
  }

  function Layouts(j: ScatterJob): nat {
    if Reorder(j) then |j.groups| else 0
  }

  function Wider(j: ScatterJob): nat {
    MulNonNegative(|j.groups|, |j.groups|);
    Layouts(j) + |j.groups| * |j.groups|
  }

  lemma {:induction false} ScatterPhaseKind(j: ScatterJob, k: nat)
    requires Peopled(j.groups) && |j.groups| >= 1 && k < |ScatterPhases(j)|
    requires |ScatterPhases(j)| == Wider(j) + j.local && |Stage0(j)| == Layouts(j) && |Stage1(j)| == Wider(j) - Layouts(j)
    ensures ScatterShapeAt(ScatterPhases(j), |j.groups|, Layouts(j), Wider(j), k)
  {
    hide Stage1, InputPermutation, AllLocalRsToIds, RingRoundList;
    if k < Layouts(j) {
      InputLayoutAt(j.groups, j.bytes, InputPermutation(j), |j.groups|, k);
    } else if k < Wider(j) {
      assert ScatterPhases(j)[k] == Stage1(j)[k - Layouts(j)];
      Stage1Kind(j, k - Layouts(j));
    } else {
      InterRsAt(j.groups, SlotShare(j), j.nodeOf, j.local, k - Wider(j));
      assert ScatterPhases(j)[k] == Stage2(j)[k - Wider(j)];
    }
  }

  lemma {:induction false} ScatterPhasesShape(j: ScatterJob)
    requires Peopled(j.groups) && |j.groups| >= 1
    ensures ScatterShape(ScatterPhases(j), |j.groups|, j.local, Layouts(j), Wider(j))
  {
    InputLayoutAt(j.groups, j.bytes, InputPermutation(j), |j.groups|, 0);
    Stage1Phase(j, 0, 0);
    InterRsAt(j.groups, SlotShare(j), j.nodeOf, j.local, 0);
    forall k | 0 <= k < |ScatterPhases(j)| ensures ScatterShapeAt(ScatterPhases(j), |j.groups|, Layouts(j), Wider(j), k) {
      ScatterPhaseKind(j, k);
    }
  }

  lemma {:induction false} InterIsSink(phases: seq<TrafficPhase>, n: nat, local: nat, layouts: nat, wide: nat, s: nat)
    requires ScatterShape(phases, n, local, layouts, wide)
    ensures !Referenced(phases, InterRs(s))
  {
    OnlyLocalRsTo(n, n, InterRs(s));
    forall k | 0 <= k < |phases| ensures InterRs(s) !in phases[k].predecessors {
      assert ScatterShapeAt(phases, n, layouts, wide, k);
    }
  }

  lemma {:induction false} LocalReferenced(phases: seq<TrafficPhase>, n: nat, local: nat, layouts: nat, wide: nat, k: nat)
    requires ScatterShape(phases, n, local, layouts, wide) && n >= 1 && local >= 1 && layouts <= k < wide
    ensures Referenced(phases, phases[k].id)
  {
    assert ScatterShapeAt(phases, n, layouts, wide, k);
    assert ScatterShapeAt(phases, n, layouts, wide, wide);
    AllIdsHave(n, n, phases[k].id.group, phases[k].id.destination);
    assert phases[k].id in phases[wide].predecessors;
  }

  /** A rank's outcome is what the reduce-scatter of its own slot leaves. */
  lemma {:induction false} ScatterConclude(phases: seq<TrafficPhase>, n: nat, local: nat, layouts: nat, wide: nat,
                        done: Results, r: Rank, s: nat)
    requires ScatterShape(phases, n, local, layouts, wide) && n >= 1 && s < local
    requires forall k :: 0 <= k < layouts ==> Referenced(phases, InputLayout(k))
    requires forall t :: 0 <= t < local && t != s ==> Of(ResultOf(done, InterRs(t)), r) == []
    ensures Final(phases, done, r) == Of(ResultOf(done, InterRs(s)), r)
  {
    assert ScatterShapeAt(phases, n, layouts, wide, wide + s);
    InterIsSink(phases, n, local, layouts, wide, s);
    forall i | 0 <= i < |phases| && i != wide + s ensures Silent(phases, done, r, i) {
      assert ScatterShapeAt(phases, n, layouts, wide, i);
      if layouts <= i < wide { LocalReferenced(phases, n, local, layouts, wide, i); }
    }
    FinalIs(phases, done, r, wide + s);
  }

  lemma {:induction false} ReferencedInside(a: seq<TrafficPhase>, b: seq<TrafficPhase>, c: seq<TrafficPhase>, i: nat, id: PhaseId)
    requires i < |b| && id in b[i].predecessors
    ensures Referenced(a + b + c, id)
  {
    assert (a + b + c)[|a| + i] == b[i];
  }

  lemma {:induction false} LayoutReferenced(j: ScatterJob, g: nat)
    requires Peopled(j.groups) && Reorder(j) && g < |j.groups|
    ensures Referenced(ScatterPhases(j), InputLayout(g))
  {
    Stage1Phase(j, g, 0);
    ReferencedInside(Stage0(j), Stage1(j), Stage2(j), Offset(g, |j.groups|, 0), InputLayout(g));
  }

  lemma {:induction false} OtherSlot(j: ScatterJob, g: nat, s: nat, t: nat)
    requires ValidScatter(j) && g < |j.groups| && s < j.local && t < j.local && t != s
    ensures Of(ResultOf(Base2(j), InterRs(t)), j.groups[g][s]) == []
  {
    AfterInter(j, 0, t);
    var slot := Slot(j.groups, t, |j.groups|);
    if j.groups[g][s] in slot {
      var h :| 0 <= h < |slot| && slot[h] == j.groups[g][s];
      SlotAt(j.groups, t, |j.groups|, h);
      PlacesDiffer(j.ranks, j.groups, j.local, g, s, h, t);
    }
  }

  lemma {:induction false} RunScatterStages(j: ScatterJob)
    requires Peopled(j.groups) && |j.groups| >= 1
    ensures Run(ScatterPhases(j), map[], j.inputs, j.blank) == Base2(j)
  {
    RunConcat(Stage0(j), Stage1(j), map[], j.inputs, j.blank);
    RunConcat(Stage0(j) + Stage1(j), Stage2(j), map[], j.inputs, j.blank);
  }

  /** The hierarchical reduce-scatter leaves the i-th participant with the fully reduced i-th shard. */
  lemma {:induction false} ReduceScatterHierarchy(j: ScatterJob, i: nat)
    requires ValidScatter(j) && i < |j.ranks|
    ensures Outcome(ScatterPhases(j), j.inputs, j.blank, j.ranks[i]) == ReducedShard(j.inputs, j.ranks, i, j.unit)
  {
    var r := j.ranks[i];
    var g, s := PlaceOf(j.ranks, j.groups, j.local, r);
    RunScatterStages(j);
    ScatterPhasesShape(j);
    var done := Base2(j);
    forall k | 0 <= k < Layouts(j) ensures Referenced(ScatterPhases(j), InputLayout(k)) { LayoutReferenced(j, k); }
    forall t | 0 <= t < j.local && t != s ensures Of(ResultOf(done, InterRs(t)), r) == [] { OtherSlot(j, g, s, t); }
    ScatterConclude(ScatterPhases(j), |j.groups|, j.local, Layouts(j), Wider(j), done, r, s);
    AfterInter(j, g, s);
    DistinctAt(j.ranks, IndexOf(j.ranks, r), i);
  }
}
