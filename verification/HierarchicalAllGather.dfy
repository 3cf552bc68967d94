/** All-gather between nodes, local all-gather, layout permutation: an all-gather of the grid. */
module HierarchicalAllGather {
  import opened Common
  import opened TrafficTypes
  import opened RingSemantics
  import opened RingCorrectness
  import opened RingResults
  import opened CollectivePlan
  import opened PlanSemantics
  import opened Stages
  import opened Grouping
  import opened Grid
  import HierarchicalAllReduce

  datatype Job = Job(ranks: seq<Rank>, groups: seq<seq<Rank>>, local: nat, bytes: nat,
                     nodeOf: map<Rank, Node>, inputs: Buffers, blank: Cell)

  ghost predicate Valid(j: Job) {
    && IsGrid(j.ranks, j.groups, j.local) && Peopled(j.groups)
    && Sized(j.inputs, j.ranks, j.bytes)
  }

  /** What a rank holds after the all-gather between nodes. */
  function NodeBytes(j: Job): nat {
    MulNonNegative(|j.groups|, j.bytes);
    |j.groups| * j.bytes
  }

  function First(j: Job): seq<TrafficPhase>
    requires |j.groups| >= 1
  {
    InterAgPhases(j.groups, j.bytes, j.nodeOf, j.local)
  }

  function Second(j: Job): seq<TrafficPhase>
    requires Peopled(j.groups)
  {
    LocalAgPhases(j.groups, NodeBytes(j), j.nodeOf, InterAgIds(j.local), |j.groups|)
  }

  // ----- the phases one by one -----

  lemma {:induction false} InterAgCount(groups: seq<seq<Rank>>, bytes: nat, nodeOf: map<Rank, Node>, n: nat)
    requires |groups| >= 1
    ensures |InterAgPhases(groups, bytes, nodeOf, n)| == n
    decreases n
  {
    hide RingPhase;
    if n > 0 { InterAgCount(groups, bytes, nodeOf, n - 1); }
  }

  lemma {:induction false} InterAgAt(groups: seq<seq<Rank>>, bytes: nat, nodeOf: map<Rank, Node>, n: nat, s: nat)
    requires |groups| >= 1
    ensures |InterAgPhases(groups, bytes, nodeOf, n)| == n
    ensures s < n ==> InterAgPhases(groups, bytes, nodeOf, n)[s] ==
                      RingPhase(InterAg(s), AllGather, Slot(groups, s, |groups|), bytes, nodeOf, [])
    decreases n
  {
    hide RingPhase;
    InterAgCount(groups, bytes, nodeOf, n);
    if s < n {
      InterAgCount(groups, bytes, nodeOf, n - 1);
      if s < n - 1 { InterAgAt(groups, bytes, nodeOf, n - 1, s); }
    }
  }

  lemma {:induction false} InterAgIdAt(n: nat, s: nat)
    requires s < n
    ensures InterAgIds(n)[s] == InterAg(s)
    decreases n
  {
    if s < n - 1 { InterAgIdAt(n - 1, s); }
  }

  lemma {:induction false} OnlyInterAg(n: nat, id: PhaseId)
    ensures id in InterAgIds(n) ==> id.InterAg?
    decreases n
  {
    if n > 0 { OnlyInterAg(n - 1, id); }
  }

  // ----- after the all-gathers between nodes -----

  lemma {:induction false} FirstIndependent(j: Job, s: nat)
    requires |j.groups| >= 1 && s < j.local
    ensures Independent(First(j), s)
    ensures First(j)[s] == RingPhase(InterAg(s), AllGather, Slot(j.groups, s, |j.groups|), j.bytes, j.nodeOf, [])
  {
    forall k | 0 <= k < |First(j)| ensures First(j)[k].id == InterAg(k) && |First(j)| == j.local {
      InterAgAt(j.groups, j.bytes, j.nodeOf, j.local, k);
    }
    InterAgAt(j.groups, j.bytes, j.nodeOf, j.local, s);
  }

  function Done1(j: Job): Results
    requires |j.groups| >= 1
  {
    Run(First(j), map[], j.inputs, j.blank)
  }

  lemma {:induction false} FirstInputs(j: Job, s: nat)
    requires Valid(j) && s < j.local && Independent(First(j), s)
    ensures Sized(PhaseInputs(First(j)[s], map[], j.inputs), Slot(j.groups, s, |j.groups|), j.bytes)
    ensures forall g :: 0 <= g < |j.groups| ==>
      Of(PhaseInputs(First(j)[s], map[], j.inputs), j.groups[g][s]) == Of(j.inputs, j.groups[g][s])
  {
    FirstIndependent(j, s);
    var slot, fed := Slot(j.groups, s, |j.groups|), PhaseInputs(First(j)[s], map[], j.inputs);
    forall r | r in slot ensures r in fed && |fed[r]| == j.bytes {
      var g :| 0 <= g < |slot| && slot[g] == r;
      SlotAt(j.groups, s, |j.groups|, g);
      PlaceInside(j.ranks, j.groups, j.local, g, s);
    }
    forall g | 0 <= g < |j.groups| ensures Of(fed, j.groups[g][s]) == Of(j.inputs, j.groups[g][s]) {
      SlotAt(j.groups, s, |j.groups|, g);
      InputAt(First(j)[s], map[], j.inputs, j.groups[g][s]);
    }
  }

  lemma {:induction false} FirstResult(j: Job, s: nat)
    requires Valid(j) && s < j.local
    ensures Independent(First(j), s)
    ensures ResultOf(Done1(j), InterAg(s)) ==
            ExecutePhase(RingPhase(InterAg(s), AllGather, Slot(j.groups, s, |j.groups|), j.bytes, j.nodeOf, []),
                         PhaseInputs(First(j)[s], map[], j.inputs), j.blank)
  {
    FirstIndependent(j, s);
    StageResult(First(j), map[], j.inputs, j.blank, s);
  }

  lemma {:induction false} SlotGather(j: Job, g: nat, s: nat, h: nat)
    requires Valid(j) && g < |j.groups| && h < |j.groups| && s < j.local && Independent(First(j), s)
    ensures
      var phase := RingPhase(InterAg(s), AllGather, Slot(j.groups, s, |j.groups|), j.bytes, j.nodeOf, []);
      var output := Of(ExecutePhase(phase, PhaseInputs(First(j)[s], map[], j.inputs), j.blank), j.groups[g][s]);
      && |output| == |j.groups| * j.bytes
      && Window(output, h, j.bytes) == Of(j.inputs, j.groups[h][s])
  {
    FirstInputs(j, s);
    SlotDistinct(j.ranks, j.groups, j.local, s);
    SlotAt(j.groups, s, |j.groups|, g);
    SlotAt(j.groups, s, |j.groups|, h);
    GatherPhase(InterAg(s), Slot(j.groups, s, |j.groups|), j.bytes, j.nodeOf, [],
                PhaseInputs(First(j)[s], map[], j.inputs), j.blank, g, h);
  }

  /** After the all-gather between nodes a rank holds its slot's inputs, node by node. */
  lemma {:induction false} AfterFirst(j: Job, g: nat, s: nat, h: nat)
    requires Valid(j) && g < |j.groups| && h < |j.groups| && s < j.local
    ensures ResultOf(Done1(j), InterAg(s)).Keys == set r | r in Slot(j.groups, s, |j.groups|)
    ensures |Of(ResultOf(Done1(j), InterAg(s)), j.groups[g][s])| == NodeBytes(j)
    ensures Window(Of(ResultOf(Done1(j), InterAg(s)), j.groups[g][s]), h, j.bytes) == Of(j.inputs, j.groups[h][s])
  {
    FirstResult(j, s);
    SlotGather(j, g, s, h);
  }

  // ----- after the local all-gathers -----

  lemma {:induction false} SecondIndependent(j: Job, g: nat)
    requires Peopled(j.groups) && g < |j.groups|
    ensures Independent(Second(j), g)
    ensures Second(j)[g] == RingPhase(LocalAg(g), AllGather, j.groups[g], NodeBytes(j), j.nodeOf, InterAgIds(j.local))
  {
    forall k | 0 <= k < |Second(j)|
      ensures Second(j)[k].id == LocalAg(k) && |Second(j)| == |j.groups| && Second(j)[k].id !in InterAgIds(j.local)
    {
      HierarchicalAllReduce.LocalAgAt(j.groups, NodeBytes(j), j.nodeOf, InterAgIds(j.local), |j.groups|, k);
      OnlyInterAg(j.local, LocalAg(k));
    }
    HierarchicalAllReduce.LocalAgAt(j.groups, NodeBytes(j), j.nodeOf, InterAgIds(j.local), |j.groups|, g);
  }

  function Done2(j: Job): Results
    requires Peopled(j.groups) && |j.groups| >= 1
  {
    Run(Second(j), Done1(j), j.inputs, j.blank)
  }

  lemma {:induction false} JoinFirst(j: Job, g: nat, s: nat)
    requires Valid(j) && g < |j.groups| && s < j.local
    ensures Joined(Done1(j), InterAgIds(j.local), j.groups[g][s], j.local) ==
            Of(ResultOf(Done1(j), InterAg(s)), j.groups[g][s])
  {
    var ids, r := InterAgIds(j.local), j.groups[g][s];
    forall t | 0 <= t < j.local && t != s
      ensures Of(ResultOf(Done1(j), ids[t]), r) == []
    {
      InterAgIdAt(j.local, t);
      AfterFirst(j, 0, t, 0);
      var slot := Slot(j.groups, t, |j.groups|);
      if r in slot {
        var h :| 0 <= h < |slot| && slot[h] == r;
        SlotAt(j.groups, t, |j.groups|, h);
        PlacesDiffer(j.ranks, j.groups, j.local, g, s, h, t);
      }
    }
    JoinedSingle(Done1(j), ids, r, j.local, s);
    InterAgIdAt(j.local, s);
  }

  lemma {:induction false} SecondInputs(j: Job, g: nat, s: nat)
    requires Valid(j) && g < |j.groups| && s < j.local && Independent(Second(j), g)
    ensures Of(PhaseInputs(Second(j)[g], Done1(j), j.inputs), j.groups[g][s]) ==
            Of(ResultOf(Done1(j), InterAg(s)), j.groups[g][s])
  {
    SecondIndependent(j, g);
    InputAt(Second(j)[g], Done1(j), j.inputs, j.groups[g][s]);
    JoinFirst(j, g, s);
  }

  lemma {:induction false} GroupFed(j: Job, g: nat)
    requires Valid(j) && g < |j.groups| && Independent(Second(j), g)
    ensures Sized(PhaseInputs(Second(j)[g], Done1(j), j.inputs), j.groups[g], NodeBytes(j))
  {
    SecondIndependent(j, g);
    var fed := PhaseInputs(Second(j)[g], Done1(j), j.inputs);
    forall r | r in j.groups[g]
      ensures r in fed && |fed[r]| == NodeBytes(j)
    {
      var s :| 0 <= s < |j.groups[g]| && j.groups[g][s] == r;
      SecondInputs(j, g, s);
      AfterFirst(j, g, s, 0);
    }
  }

  /** What a rank of group `g` holds after the local all-gather. */
  function Wide(j: Job, g: nat, r: Rank): Buffer
    requires Peopled(j.groups) && |j.groups| >= 1
  {
    Of(ResultOf(Done2(j), LocalAg(g)), r)
  }

  lemma {:induction false} AfterSecond(j: Job, g: nat, s: nat, t: nat)
    requires Valid(j) && g < |j.groups| && s < j.local && t < j.local
    ensures ResultOf(Done2(j), LocalAg(g)).Keys == set r | r in j.groups[g]
    ensures |Wide(j, g, j.groups[g][s])| == j.local * NodeBytes(j)
    ensures Window(Wide(j, g, j.groups[g][s]), t, NodeBytes(j)) == Of(ResultOf(Done1(j), InterAg(t)), j.groups[g][t])
  {
    hide Run, Gathered, Window, Distinct;
    SecondIndependent(j, g);
    var fed := PhaseInputs(Second(j)[g], Done1(j), j.inputs);
    StageResult(Second(j), Done1(j), j.inputs, j.blank, g);
    GroupDistinct(j.ranks, j.groups, j.local, g);
    GroupFed(j, g);
    GatherPhase(LocalAg(g), j.groups[g], NodeBytes(j), j.nodeOf, InterAgIds(j.local), fed, j.blank, s, t);
    SecondInputs(j, g, t);
  }

  lemma {:induction false} NestedWindow(buffer: Buffer, t: nat, n: nat, h: nat, width: nat, wide: nat)
    requires h < n && wide == n * width
    ensures Window(Window(buffer, t, wide), h, width) == Window(buffer, Offset(t, n, h), width)
  {
    var left, right := Window(Window(buffer, t, wide), h, width), Window(buffer, Offset(t, n, h), width);
    forall q | 0 <= q < width ensures left[q] == right[q] {
      NestedOffset(t, n, h, width, wide, q);
    }
  }

  lemma {:induction false} NestedOffset(t: nat, n: nat, h: nat, width: nat, wide: nat, q: nat)
    requires h < n && wide == n * width && q < width
    ensures Offset(h, width, q) < wide
    ensures Offset(t, wide, Offset(h, width, q)) == Offset(Offset(t, n, h), width, q)
  {
    MulMono(h + 1, n, width);
    assert (h + 1) * width == h * width + width;
    assert t * wide == (t * n) * width;
    assert (t * n + h) * width == (t * n) * width + h * width;
  }

  /** Slot-major: block `t * nodes + h` is the input of slot `t` of node `h`. */
  lemma {:induction false} SlotMajorBlocks(j: Job, g: nat, s: nat, h: nat, t: nat)
    requires Valid(j) && g < |j.groups| && s < j.local && h < |j.groups| && t < j.local
    ensures Window(Wide(j, g, j.groups[g][s]), Offset(t, |j.groups|, h), j.bytes) == Of(j.inputs, j.groups[h][t])
  {
    AfterSecond(j, g, s, t);
    AfterFirst(j, g, t, h);
    NestedWindow(Wide(j, g, j.groups[g][s]), t, |j.groups|, h, j.bytes, NodeBytes(j));
  }

  // ----- into participant order -----

  lemma {:induction false} SlotMajorAt(groups: seq<seq<Rank>>, n: nat, t: nat, h: nat)
    ensures |SlotMajor(groups, n)| == n * |groups|
    ensures t < n && h < |groups| ==>
      Offset(t, |groups|, h) < n * |groups| && SlotMajor(groups, n)[Offset(t, |groups|, h)] == Member(groups, h, t)
    decreases n
  {
    if n > 0 {
      SlotMajorAt(groups, n - 1, t, h);
      assert n * |groups| == (n - 1) * |groups| + |groups|;
      if t < n - 1 && h < |groups| {
        MulMono(t + 1, n - 1, |groups|);
      } else if t == n - 1 && h < |groups| {
        SlotAt(groups, t, |groups|, h);
      }
    }
  }

  /** Splits a block number into slot and node. */
  lemma {:induction false} SplitBlock(x: nat, n: nat, local: nat) returns (t: nat, h: nat)
    requires x < local * n
    ensures t < local && h < n && x == Offset(t, n, h)
  {
    t := ShardFor(x, n, local);
    InShardIff(x, t, n);
    ShardOf(x, t, n);
    h := x - t * n;
  }

  lemma {:induction false} OrderHasAll(j: Job, r: Rank)
    requires Valid(j) && r in j.ranks
    ensures r in SlotMajor(j.groups, j.local)
  {
    var h, t := PlaceOf(j.ranks, j.groups, j.local, r);
    SlotMajorAt(j.groups, j.local, t, h);
  }

  /** The layout permutation finds every participant's block. */
  lemma {:induction false} BlockOfRank(j: Job, g: nat, s: nat, r: Rank)
    requires Valid(j) && g < |j.groups| && s < j.local && r in j.ranks
    ensures Window(Wide(j, g, j.groups[g][s]), Position(SlotMajor(j.groups, j.local), r), j.bytes) == Of(j.inputs, r)
  {
    var order := SlotMajor(j.groups, j.local);
    OrderHasAll(j, r);
    var x := Position(order, r);
    SlotMajorAt(j.groups, j.local, 0, 0);
    var t, h := SplitBlock(x, |j.groups|, j.local);
    SlotMajorAt(j.groups, j.local, t, h);
    SlotMajorBlocks(j, g, s, h, t);
  }

  lemma {:induction false} PositionAt(order: seq<Rank>, ranks: seq<Rank>, n: nat, i: nat)
    requires i < n <= |ranks|
    ensures Positions(order, ranks, n)[i] == Position(order, ranks[i])
    decreases n
  {
    if i < n - 1 { PositionAt(order, ranks, n - 1, i); }
  }

  lemma {:induction false} GatheredAppend(inputs: Buffers, ranks: seq<Rank>, n: nat)
    requires 0 < n <= |ranks|
    ensures Gathered(inputs, ranks[..n]) == Gathered(inputs, ranks[..n - 1]) + Of(inputs, ranks[n - 1])
  {
    assert ranks[..n][..n - 1] == ranks[..n - 1];
  }

  ghost predicate BlockIs(data: Buffer, permutation: seq<nat>, width: nat, inputs: Buffers, ranks: seq<Rank>, i: nat) {
    i < |permutation| && i < |ranks| && Window(data, permutation[i], width) == Of(inputs, ranks[i])
  }

  lemma {:induction false} PermutedIsGathered(data: Buffer, permutation: seq<nat>, width: nat, inputs: Buffers,
                                              ranks: seq<Rank>, n: nat)
    requires n <= |ranks| == |permutation|
    requires forall i :: 0 <= i < n ==> BlockIs(data, permutation, width, inputs, ranks, i)
    ensures Permuted(data, permutation, width, n) == Gathered(inputs, ranks[..n])
    decreases n
  {
    if n > 0 {
      PermutedIsGathered(data, permutation, width, inputs, ranks, n - 1);
      GatheredAppend(inputs, ranks, n);
      assert BlockIs(data, permutation, width, inputs, ranks, n - 1);
    }
  }

  /** Reordering the gathered blocks yields the inputs in participant order. */
  lemma {:induction false} LayoutCorrect(j: Job, g: nat, s: nat)
    requires Valid(j) && g < |j.groups| && s < j.local
    ensures Permuted(Wide(j, g, j.groups[g][s]), Positions(SlotMajor(j.groups, j.local), j.ranks, |j.ranks|),
                     j.bytes, |j.ranks|) == Gathered(j.inputs, j.ranks)
  {
    hide Wide, SlotMajor, Permuted, Distinct;
    var data := Wide(j, g, j.groups[g][s]);
    var permutation := Positions(SlotMajor(j.groups, j.local), j.ranks, |j.ranks|);
    forall i | 0 <= i < |j.ranks| ensures BlockIs(data, permutation, j.bytes, j.inputs, j.ranks, i) {
      PositionAt(SlotMajor(j.groups, j.local), j.ranks, |j.ranks|, i);
      BlockOfRank(j, g, s, j.ranks[i]);
    }
    PermutedIsGathered(data, permutation, j.bytes, j.inputs, j.ranks, |j.ranks|);
    assert j.ranks[..|j.ranks|] == j.ranks;
  }

  lemma {:induction false} IdentityAt(n: nat, i: nat)
    requires i < n
    ensures Identity(n)[i] == i
    decreases n
  {
    if i < n - 1 { IdentityAt(n - 1, i); }
  }

  /** The identity permutation changes nothing. */
  lemma {:induction false} PermutedIdentity(data: Buffer, width: nat, total: nat, n: nat)
    requires n <= total && n * width <= |data|
    ensures |Permuted(data, Identity(total), width, n)| == n * width
    ensures Permuted(data, Identity(total), width, n) == data[..n * width]
    decreases n
  {
    if n > 0 {
      assert n * width == (n - 1) * width + width;
      PermutedIdentity(data, width, total, n - 1);
      IdentityAt(total, n - 1);
      var block := Window(data, n - 1, width);
      forall q | 0 <= q < width ensures block[q] == data[(n - 1) * width..n * width][q] {
        assert Offset(n - 1, width, q) == (n - 1) * width + q;
      }
      assert block == data[(n - 1) * width..n * width];
    }
  }

  // ----- the layout phases -----

  function Permutation(j: Job): (permutation: seq<nat>)
    ensures |permutation| == |j.ranks|
  {
    Positions(SlotMajor(j.groups, j.local), j.ranks, |j.ranks|)
  }

  predicate Relayout(j: Job) {
    j.bytes > 0 && Permutation(j) != Identity(|j.ranks|)
  }

  function AllBytes(j: Job): nat {
    MulNonNegative(|j.ranks|, j.bytes);
    |j.ranks| * j.bytes
  }

  function Third(j: Job): seq<TrafficPhase> {
    if Relayout(j) then LayoutPhases(j.groups, AllBytes(j), Permutation(j), |j.groups|) else []
  }

  lemma {:induction false} LayoutAt(groups: seq<seq<Rank>>, bytes: nat, permutation: seq<nat>, n: nat, g: nat)
    requires n <= |groups|
    ensures |LayoutPhases(groups, bytes, permutation, n)| == n
    ensures g < n ==> LayoutPhases(groups, bytes, permutation, n)[g] ==
                      TrafficPhase(Layout(g), DataReorder, groups[g], bytes, [], [LocalAg(g)], permutation)
    decreases n
  {
    if n > 0 { LayoutAt(groups, bytes, permutation, n - 1, g); }
  }

  lemma {:induction false} ThirdIndependent(j: Job, g: nat)
    requires Relayout(j) && g < |j.groups|
    ensures Independent(Third(j), g)
    ensures Third(j)[g] == TrafficPhase(Layout(g), DataReorder, j.groups[g], AllBytes(j), [], [LocalAg(g)], Permutation(j))
  {
    forall k | 0 <= k < |Third(j)| ensures Third(j)[k].id == Layout(k) && |Third(j)| == |j.groups| {
      LayoutAt(j.groups, AllBytes(j), Permutation(j), |j.groups|, k);
    }
    LayoutAt(j.groups, AllBytes(j), Permutation(j), |j.groups|, g);
  }

  function Done3(j: Job): Results
    requires Peopled(j.groups) && |j.groups| >= 1
  {
    Run(Third(j), Done2(j), j.inputs, j.blank)
  }

  lemma {:induction false} SingleJoin(done: Results, id: PhaseId, r: Rank)
    ensures Joined(done, [id], r, 1) == Of(ResultOf(done, id), r)
  {
    assert Joined(done, [id], r, 0) == [];
  }

  lemma {:induction false} AfterThird(j: Job, g: nat, s: nat)
    requires Valid(j) && Relayout(j) && g < |j.groups| && s < j.local
    ensures ResultOf(Done3(j), Layout(g)).Keys == set r | r in j.groups[g]
    ensures Of(ResultOf(Done3(j), Layout(g)), j.groups[g][s]) == Gathered(j.inputs, j.ranks)
  {
    hide SlotMajor, Gathered, Run, Distinct;
    ThirdIndependent(j, g);
    StageResult(Third(j), Done2(j), j.inputs, j.blank, g);
    InputAt(Third(j)[g], Done2(j), j.inputs, j.groups[g][s]);
    SingleJoin(Done2(j), LocalAg(g), j.groups[g][s]);
    assert |j.ranks| >= 1 by { PlaceInside(j.ranks, j.groups, j.local, g, s); }
    ExactQuotient(|j.ranks|, j.bytes);
    LayoutCorrect(j, g, s);
  }

  lemma {:induction false} NothingGathered(inputs: Buffers, ranks: seq<Rank>)
    requires Sized(inputs, ranks, 0)
    ensures Gathered(inputs, ranks) == []
  {
    if ranks != [] { NothingGathered(inputs, ranks[..|ranks| - 1]); }
  }

  lemma {:induction false} WideLength(j: Job, g: nat, s: nat)
    requires Valid(j) && g < |j.groups| && s < j.local
    ensures |Wide(j, g, j.groups[g][s])| == |j.ranks| * j.bytes
  {
    AfterSecond(j, g, s, 0);
    GridCount(j.ranks, j.groups, j.local);
    Regroup(j.local, |j.groups|, j.bytes);
  }

  lemma {:induction false} Regroup(a: int, b: int, c: int)
    ensures a * (b * c) == (b * a) * c
  {
  }

  lemma {:induction false} WholeIdentity(data: Buffer, width: nat, n: nat)
    requires |data| == n * width
    ensures Permuted(data, Identity(n), width, n) == data
  {
    PermutedIdentity(data, width, n, n);
  }

  lemma {:induction false} InOrder(j: Job, g: nat, s: nat)
    requires Valid(j) && Permutation(j) == Identity(|j.ranks|) && g < |j.groups| && s < j.local
    ensures Wide(j, g, j.groups[g][s]) == Gathered(j.inputs, j.ranks)
  {
    var data := Wide(j, g, j.groups[g][s]);
    WideLength(j, g, s);
    WholeIdentity(data, j.bytes, |j.ranks|);
    LayoutCorrect(j, g, s);
    assert Permuted(data, Permutation(j), j.bytes, |j.ranks|) == Gathered(j.inputs, j.ranks);
  }

  /** Without a layout phase the gathered blocks are already in participant order. */
  lemma {:induction false} WithoutLayout(j: Job, g: nat, s: nat)
    requires Valid(j) && !Relayout(j) && g < |j.groups| && s < j.local
    ensures Wide(j, g, j.groups[g][s]) == Gathered(j.inputs, j.ranks)
  {
    if j.bytes == 0 {
      WideLength(j, g, s);
      NothingGathered(j.inputs, j.ranks);
    } else {
      InOrder(j, g, s);
    }
  }

  // ----- the whole plan -----

  function Phases(j: Job): seq<TrafficPhase>
    requires Peopled(j.groups) && |j.groups| >= 1
  {
    First(j) + Second(j) + Third(j)
  }

  lemma {:induction false} PhasesMatch(j: Job)
    requires Peopled(j.groups) && |j.groups| >= 1
    ensures Phases(j) == AllGatherPhases(j.ranks, j.groups, j.local, j.bytes, j.nodeOf)
  {
  }

  function IdAt(n: nat, local: nat, k: nat): PhaseId {
    if k < local then InterAg(k) else if k < local + n then LocalAg(k - local) else Layout(k - local - n)
  }

  function PredecessorsAt(n: nat, local: nat, k: nat): seq<PhaseId> {
    if k < local then [] else if k < local + n then InterAgIds(local) else [LocalAg(k - local - n)]
  }

  ghost predicate ShapeAt(phases: seq<TrafficPhase>, n: nat, local: nat, k: nat) {
    k < |phases| && phases[k].id == IdAt(n, local, k) && phases[k].predecessors == PredecessorsAt(n, local, k)
  }

  ghost predicate Shape(phases: seq<TrafficPhase>, n: nat, local: nat, relayout: bool) {
    && |phases| == local + n + (if relayout then n else 0)
    && forall k :: 0 <= k < |phases| ==> ShapeAt(phases, n, local, k)
  }

  lemma {:induction false} PhaseCount(j: Job)
    requires Peopled(j.groups) && |j.groups| >= 1
    ensures |First(j)| == j.local && |Second(j)| == |j.groups|
    ensures |Third(j)| == if Relayout(j) then |j.groups| else 0
  {
    InterAgCount(j.groups, j.bytes, j.nodeOf, j.local);
    HierarchicalAllReduce.LocalAgAt(j.groups, NodeBytes(j), j.nodeOf, InterAgIds(j.local), |j.groups|, 0);
    LayoutAt(j.groups, AllBytes(j), Permutation(j), |j.groups|, 0);
  }

  lemma {:induction false} PhasesShape(j: Job)
    requires Peopled(j.groups) && |j.groups| >= 1
    ensures Shape(Phases(j), |j.groups|, j.local, Relayout(j))
  {
    hide Permutation, RingRoundList;
    var n := |j.groups|;
    PhaseCount(j);
    forall k | 0 <= k < |Phases(j)| ensures ShapeAt(Phases(j), n, j.local, k) {
      if k < j.local {
        InterAgAt(j.groups, j.bytes, j.nodeOf, j.local, k);
      } else if k < j.local + n {
        HierarchicalAllReduce.LocalAgAt(j.groups, NodeBytes(j), j.nodeOf, InterAgIds(j.local), n, k - j.local);
        assert Phases(j)[k] == Second(j)[k - j.local];
      } else {
        LayoutAt(j.groups, AllBytes(j), Permutation(j), n, k - j.local - n);
        assert Phases(j)[k] == Third(j)[k - j.local - n];
      }
    }
  }

  /** The phase that leaves the outcome on the ranks of group `g`. */
  function LastId(relayout: bool, g: nat): PhaseId {
    if relayout then Layout(g) else LocalAg(g)
  }

  lemma {:induction false} LastIsSink(phases: seq<TrafficPhase>, n: nat, local: nat, relayout: bool, g: nat)
    requires Shape(phases, n, local, relayout)
    ensures !Referenced(phases, LastId(relayout, g))
  {
    OnlyInterAg(local, LastId(relayout, g));
    forall k | 0 <= k < |phases| ensures LastId(relayout, g) !in phases[k].predecessors {
      assert ShapeAt(phases, n, local, k);
    }
  }

  lemma {:induction false} EarlierReferenced(phases: seq<TrafficPhase>, n: nat, local: nat, relayout: bool, k: nat)
    requires Shape(phases, n, local, relayout) && n >= 1 && local >= 1
    requires k < local || (relayout && k < local + n)
    ensures Referenced(phases, phases[k].id)
  {
    assert ShapeAt(phases, n, local, k);
    if k < local {
      assert ShapeAt(phases, n, local, local);
      InterAgIdAt(local, k);
      assert phases[k].id in phases[local].predecessors;
    } else {
      assert ShapeAt(phases, n, local, k + n);
      assert phases[k].id in phases[k + n].predecessors;
    }
  }

  lemma {:induction false} Conclude(phases: seq<TrafficPhase>, n: nat, local: nat, relayout: bool, done: Results, r: Rank, g: nat)
    requires Shape(phases, n, local, relayout) && n >= 1 && local >= 1 && g < n
    requires forall h :: 0 <= h < n && h != g ==> Of(ResultOf(done, LastId(relayout, h)), r) == []
    ensures Final(phases, done, r) == Of(ResultOf(done, LastId(relayout, g)), r)
  {
    var first := if relayout then local + n else local;
    assert ShapeAt(phases, n, local, first + g);
    LastIsSink(phases, n, local, relayout, g);
    forall i | 0 <= i < |phases| && i != first + g ensures Silent(phases, done, r, i) {
      if i < first {
        EarlierReferenced(phases, n, local, relayout, i);
      } else {
        assert ShapeAt(phases, n, local, i);
        assert phases[i].id == LastId(relayout, i - first);
      }
    }
    FinalIs(phases, done, r, first + g);
  }

  lemma {:induction false} LastResult(j: Job, g: nat, s: nat)
    requires Valid(j) && g < |j.groups| && s < j.local
    ensures ResultOf(Done3(j), LastId(Relayout(j), g)).Keys == set r | r in j.groups[g]
    ensures Of(ResultOf(Done3(j), LastId(Relayout(j), g)), j.groups[g][s]) == Gathered(j.inputs, j.ranks)
  {
    if Relayout(j) {
      AfterThird(j, g, s);
    } else {
      WithoutLayout(j, g, s);
      AfterSecond(j, g, s, 0);
    }
  }

  lemma {:induction false} OtherLast(j: Job, g: nat, s: nat, h: nat)
    requires Valid(j) && g < |j.groups| && s < j.local && h < |j.groups| && h != g
    ensures Of(ResultOf(Done3(j), LastId(Relayout(j), h)), j.groups[g][s]) == []
  {
    LastResult(j, h, 0);
    if j.groups[g][s] in j.groups[h] {
      var t :| 0 <= t < |j.groups[h]| && j.groups[h][t] == j.groups[g][s];
      PlacesDiffer(j.ranks, j.groups, j.local, g, s, h, t);
    }
  }

  lemma {:induction false} RunStages(j: Job)
    requires Peopled(j.groups) && |j.groups| >= 1
    ensures Run(Phases(j), map[], j.inputs, j.blank) == Done3(j)
  {
    RunConcat(First(j), Second(j), map[], j.inputs, j.blank);
    RunConcat(First(j) + Second(j), Third(j), map[], j.inputs, j.blank);
  }

  /** The hierarchical all-gather leaves every participant with all inputs in participant order. */
  lemma {:induction false} AllGatherHierarchy(j: Job, r: Rank)
    requires Valid(j) && r in j.ranks
    ensures Outcome(Phases(j), j.inputs, j.blank, r) == Gathered(j.inputs, j.ranks)
  {
    var g, s := PlaceOf(j.ranks, j.groups, j.local, r);
    RunStages(j);
    PhasesShape(j);
    var done, relayout := Done3(j), Relayout(j);
    forall h | 0 <= h < |j.groups| && h != g ensures Of(ResultOf(done, LastId(relayout, h)), r) == [] {
      OtherLast(j, g, s, h);
    }
    Conclude(Phases(j), |j.groups|, j.local, relayout, done, r, g);
    LastResult(j, g, s);
  }
}
