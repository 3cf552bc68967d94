/** Local reduce-scatter, all-reduce between nodes, local all-gather: an all-reduce of the grid. */
module HierarchicalAllReduce {
  import opened Common
  import opened TrafficTypes
  import opened RingSemantics
  import opened RingCorrectness
  import opened RingResults
  import opened CollectivePlan
  import opened PlanSemantics
  import opened Stages
  import opened Grouping
  import opened Grid

  /** A reduction over a grid; each rank's share after the local reduce-scatter is `share` bytes. */
  datatype Job = Job(ranks: seq<Rank>, groups: seq<seq<Rank>>, local: nat, share: nat, bytes: nat,
                     nodeOf: map<Rank, Node>, inputs: Buffers, blank: Cell)

  ghost predicate Valid(j: Job) {
    && IsGrid(j.ranks, j.groups, j.local) && Peopled(j.groups)
    && Sized(j.inputs, j.ranks, j.bytes)
    && j.bytes == j.local * j.share
    && (exists unit: nat :: j.share == |j.groups| * unit)
  }

  function First(j: Job): seq<TrafficPhase>
    requires Peopled(j.groups)
  {
    LocalRsPhases(j.groups, j.bytes, j.nodeOf, |j.groups|)
  }

  function Second(j: Job): seq<TrafficPhase>
    requires |j.groups| >= 1
  {
    InterArPhases(j.groups, j.share, j.nodeOf, j.local)
  }

  function Third(j: Job): seq<TrafficPhase>
    requires Peopled(j.groups)
  {
    LocalAgPhases(j.groups, j.share, j.nodeOf, InterArIds(j.local), |j.groups|)
  }

  // ----- the phases one by one -----

  lemma {:induction false} LocalRsAt(groups: seq<seq<Rank>>, bytes: nat, nodeOf: map<Rank, Node>, n: nat, g: nat)
    requires n <= |groups| && Peopled(groups)
    ensures |LocalRsPhases(groups, bytes, nodeOf, n)| == n
    ensures g < n ==> LocalRsPhases(groups, bytes, nodeOf, n)[g] ==
                      RingPhase(LocalRs(g), ReduceScatter, groups[g], bytes, nodeOf, [])
    decreases n
  {
    hide RingPhase;
    if n > 0 { LocalRsAt(groups, bytes, nodeOf, n - 1, g); }
  }

  lemma {:induction false} InterArCount(groups: seq<seq<Rank>>, bytes: nat, nodeOf: map<Rank, Node>, n: nat)
    requires |groups| >= 1
    ensures |InterArPhases(groups, bytes, nodeOf, n)| == n
    decreases n
  {
    hide RingPhase;
    if n > 0 { InterArCount(groups, bytes, nodeOf, n - 1); }
  }

  lemma {:induction false} InterArAt(groups: seq<seq<Rank>>, bytes: nat, nodeOf: map<Rank, Node>, n: nat, s: nat)
    requires |groups| >= 1
    ensures |InterArPhases(groups, bytes, nodeOf, n)| == n
    ensures s < n ==> InterArPhases(groups, bytes, nodeOf, n)[s] ==
                      RingPhase(InterAr(s), AllReduce, Slot(groups, s, |groups|), bytes, nodeOf, LocalRsIds(|groups|))
    decreases n
  {
    hide RingPhase;
    InterArCount(groups, bytes, nodeOf, n);
    if s < n {
      InterArCount(groups, bytes, nodeOf, n - 1);
      if s < n - 1 { InterArAt(groups, bytes, nodeOf, n - 1, s); }
    }
  }

  lemma {:induction false} LocalAgAt(groups: seq<seq<Rank>>, bytes: nat, nodeOf: map<Rank, Node>,
                                     predecessors: seq<PhaseId>, n: nat, g: nat)
    requires n <= |groups| && Peopled(groups)
    ensures |LocalAgPhases(groups, bytes, nodeOf, predecessors, n)| == n
    ensures g < n ==> LocalAgPhases(groups, bytes, nodeOf, predecessors, n)[g] ==
                      RingPhase(LocalAg(g), AllGather, groups[g], bytes, nodeOf, predecessors)
    decreases n
  {
    hide RingPhase;
    if n > 0 { LocalAgAt(groups, bytes, nodeOf, predecessors, n - 1, g); }
  }

  lemma {:induction false} LocalRsIdAt(n: nat, g: nat)
    requires g < n
    ensures LocalRsIds(n)[g] == LocalRs(g)
    decreases n
  {
    if g < n - 1 { LocalRsIdAt(n - 1, g); }
  }

  lemma {:induction false} InterArIdAt(n: nat, s: nat)
    requires s < n
    ensures InterArIds(n)[s] == InterAr(s)
    decreases n
  {
    if s < n - 1 { InterArIdAt(n - 1, s); }
  }

  // ----- after the local reduce-scatters -----

  lemma {:induction false} FirstIndependent(j: Job, g: nat)
    requires Peopled(j.groups) && g < |j.groups|
    ensures Independent(First(j), g)
    ensures First(j)[g] == RingPhase(LocalRs(g), ReduceScatter, j.groups[g], j.bytes, j.nodeOf, [])
  {
    forall k | 0 <= k < |First(j)| ensures First(j)[k].id == LocalRs(k) && |First(j)| == |j.groups| {
      LocalRsAt(j.groups, j.bytes, j.nodeOf, |j.groups|, k);
    }
    LocalRsAt(j.groups, j.bytes, j.nodeOf, |j.groups|, g);
  }

  function Done1(j: Job): Results
    requires Peopled(j.groups)
  {
    Run(First(j), map[], j.inputs, j.blank)
  }

  lemma {:induction false} GroupInputs(j: Job, g: nat)
    requires Valid(j) && g < |j.groups|
    ensures Sized(j.inputs, j.groups[g], j.bytes)
  {
    forall r | r in j.groups[g] ensures r in j.ranks {
      var s :| 0 <= s < |j.groups[g]| && j.groups[g][s] == r;
      PlaceInside(j.ranks, j.groups, j.local, g, s);
    }
  }

  /** After the local reduce-scatter, slot `s` of group `g` holds shard `s` of the group's sum. */
  lemma {:induction false} AfterFirst(j: Job, g: nat, s: nat)
    requires Valid(j) && g < |j.groups| && s < j.local
    ensures ResultOf(Done1(j), LocalRs(g)).Keys == set r | r in j.groups[g]
    ensures Of(ResultOf(Done1(j), LocalRs(g)), j.groups[g][s]) == ReducedShard(j.inputs, j.groups[g], s, j.share)
  {
    FirstIndependent(j, g);
    var fed := PhaseInputs(First(j)[g], map[], j.inputs);
    StageResult(First(j), map[], j.inputs, j.blank, g);
    GroupInputs(j, g);
    GroupDistinct(j.ranks, j.groups, j.local, g);
    forall r | r in j.groups[g] ensures Of(fed, r) == Of(j.inputs, r) {
      InputAt(First(j)[g], map[], j.inputs, r);
    }
    ScatterPhase(LocalRs(g), j.groups[g], j.bytes, j.nodeOf, [], j.share, fed, j.blank, s);
    SameShard(fed, j.inputs, j.groups[g], s, j.share);
  }

  // ----- after the all-reduces between nodes -----

  lemma {:induction false} SecondIndependent(j: Job, s: nat)
    requires |j.groups| >= 1 && s < j.local
    ensures Independent(Second(j), s)
    ensures Second(j)[s] ==
            RingPhase(InterAr(s), AllReduce, Slot(j.groups, s, |j.groups|), j.share, j.nodeOf, LocalRsIds(|j.groups|))
  {
    forall k | 0 <= k < |Second(j)|
      ensures Second(j)[k].id == InterAr(k) && |Second(j)| == j.local && Second(j)[k].id !in LocalRsIds(|j.groups|)
    {
      InterArAt(j.groups, j.share, j.nodeOf, j.local, k);
      OnlyLocalRs(|j.groups|, InterAr(k));
    }
    InterArAt(j.groups, j.share, j.nodeOf, j.local, s);
  }

  lemma {:induction false} OnlyLocalRs(n: nat, id: PhaseId)
    ensures id in LocalRsIds(n) ==> id.LocalRs?
    decreases n
  {
    if n > 0 { OnlyLocalRs(n - 1, id); }
  }

  function Done2(j: Job): Results
    requires Peopled(j.groups) && |j.groups| >= 1
  {
    Run(Second(j), Done1(j), j.inputs, j.blank)
  }

  /** Of all local reduce-scatters only the one of its own node involves a rank. */
  lemma {:induction false} JoinFirst(j: Job, g: nat, s: nat)
    requires Valid(j) && g < |j.groups| && s < j.local
    ensures Joined(Done1(j), LocalRsIds(|j.groups|), j.groups[g][s], |j.groups|) ==
            ReducedShard(j.inputs, j.groups[g], s, j.share)
  {
    var ids, r := LocalRsIds(|j.groups|), j.groups[g][s];
    forall i | 0 <= i < |j.groups| && i != g
      ensures Of(ResultOf(Done1(j), ids[i]), r) == []
    {
      LocalRsIdAt(|j.groups|, i);
      AfterFirst(j, i, 0);
      if r in j.groups[i] {
        var t :| 0 <= t < |j.groups[i]| && j.groups[i][t] == r;
        PlacesDiffer(j.ranks, j.groups, j.local, g, s, i, t);
      }
    }
    JoinedSingle(Done1(j), ids, r, |j.groups|, g);
    LocalRsIdAt(|j.groups|, g);
    AfterFirst(j, g, s);
  }

  lemma {:induction false} SecondInputs(j: Job, g: nat, s: nat)
    requires Valid(j) && g < |j.groups| && s < j.local && Independent(Second(j), s)
    ensures Of(PhaseInputs(Second(j)[s], Done1(j), j.inputs), j.groups[g][s]) ==
            ReducedShard(j.inputs, j.groups[g], s, j.share)
  {
    SecondIndependent(j, s);
    SlotAt(j.groups, s, |j.groups|, g);
    InputAt(Second(j)[s], Done1(j), j.inputs, j.groups[g][s]);
    JoinFirst(j, g, s);
  }

  lemma {:induction false} SlotFed(j: Job, s: nat)
    requires Valid(j) && s < j.local && Independent(Second(j), s)
    ensures Sized(PhaseInputs(Second(j)[s], Done1(j), j.inputs), Slot(j.groups, s, |j.groups|), j.share)
  {
    SecondIndependent(j, s);
    var slot, fed := Slot(j.groups, s, |j.groups|), PhaseInputs(Second(j)[s], Done1(j), j.inputs);
    forall r | r in slot
      ensures r in fed && |fed[r]| == j.share
    {
      var g :| 0 <= g < |slot| && slot[g] == r;
      SlotAt(j.groups, s, |j.groups|, g);
      SecondInputs(j, g, s);
    }
  }

  /** After the all-reduce between nodes, every slot `s` holds shard `s` of the grid's sum. */
  lemma {:induction false} AfterSecond(j: Job, g: nat, s: nat)
    requires Valid(j) && g < |j.groups| && s < j.local
    ensures ResultOf(Done2(j), InterAr(s)).Keys == set r | r in Slot(j.groups, s, |j.groups|)
    ensures Of(ResultOf(Done2(j), InterAr(s)), j.groups[g][s]) == ReducedShard(j.inputs, j.ranks, s, j.share)
  {
    hide Run, Window, ReducedShard, Slot;
    SecondIndependent(j, s);
    var slot, fed := Slot(j.groups, s, |j.groups|), PhaseInputs(Second(j)[s], Done1(j), j.inputs);
    StageResult(Second(j), Done1(j), j.inputs, j.blank, s);
    SlotDistinct(j.ranks, j.groups, j.local, s);
    SlotFed(j, s);
    var unit: nat :| j.share == |j.groups| * unit;
    ReducePhase(InterAr(s), slot, j.share, j.nodeOf, LocalRsIds(|j.groups|), unit, fed, j.blank, g);
    SlotAt(j.groups, s, |j.groups|, g);
    SlotSum(j, s, fed);
  }

  lemma {:induction false} SlotByte(j: Job, s: nat, fed: Buffers, q: nat)
    requires Valid(j) && s < j.local && Independent(Second(j), s) && q < j.share
    requires fed == PhaseInputs(Second(j)[s], Done1(j), j.inputs)
    ensures Total(fed, Slot(j.groups, s, |j.groups|), q) == Total(j.inputs, j.ranks, Offset(s, j.share, q))
  {
    var p := Offset(s, j.share, q);
    forall g | 0 <= g < |j.groups| ensures HoldsTotal(fed, q, j.inputs, j.groups, s, g, p) {
      SecondInputs(j, g, s);
    }
    SlotTotal(fed, q, j.inputs, j.groups, s, |j.groups|, p);
    GridTotal(j.inputs, j.ranks, j.groups, j.local, p);
  }

  lemma {:induction false} SlotSum(j: Job, s: nat, fed: Buffers)
    requires Valid(j) && s < j.local && Independent(Second(j), s)
    requires fed == PhaseInputs(Second(j)[s], Done1(j), j.inputs)
    ensures ReducedShard(fed, Slot(j.groups, s, |j.groups|), 0, j.share) ==
            ReducedShard(j.inputs, j.ranks, s, j.share)
  {
    var slot := Slot(j.groups, s, |j.groups|);
    forall q | 0 <= q < j.share ensures SameByte(fed, slot, 0, j.inputs, j.ranks, s, j.share, q) {
      OffsetZero(j.share, q);
      SlotByte(j, s, fed, q);
    }
    ShardsAgree(fed, slot, 0, j.inputs, j.ranks, s, j.share);
  }

  // ----- after the local all-gathers -----

  lemma {:induction false} OnlyInterAr(n: nat, id: PhaseId)
    ensures id in InterArIds(n) ==> id.InterAr?
    decreases n
  {
    if n > 0 { OnlyInterAr(n - 1, id); }
  }

  lemma {:induction false} ThirdIndependent(j: Job, g: nat)
    requires Peopled(j.groups) && g < |j.groups|
    ensures Independent(Third(j), g)
    ensures Third(j)[g] == RingPhase(LocalAg(g), AllGather, j.groups[g], j.share, j.nodeOf, InterArIds(j.local))
  {
    forall k | 0 <= k < |Third(j)|
      ensures Third(j)[k].id == LocalAg(k) && |Third(j)| == |j.groups| && Third(j)[k].id !in InterArIds(j.local)
    {
      LocalAgAt(j.groups, j.share, j.nodeOf, InterArIds(j.local), |j.groups|, k);
      OnlyInterAr(j.local, LocalAg(k));
    }
    LocalAgAt(j.groups, j.share, j.nodeOf, InterArIds(j.local), |j.groups|, g);
  }

  function Done3(j: Job): Results
    requires Peopled(j.groups) && |j.groups| >= 1
  {
    Run(Third(j), Done2(j), j.inputs, j.blank)
  }

  lemma {:induction false} JoinSecond(j: Job, g: nat, s: nat)
    requires Valid(j) && g < |j.groups| && s < j.local
    ensures Joined(Done2(j), InterArIds(j.local), j.groups[g][s], j.local) ==
            ReducedShard(j.inputs, j.ranks, s, j.share)
  {
    var ids, r := InterArIds(j.local), j.groups[g][s];
    forall t | 0 <= t < j.local && t != s
      ensures Of(ResultOf(Done2(j), ids[t]), r) == []
    {
      InterArIdAt(j.local, t);
      AfterSecond(j, 0, t);
      var slot := Slot(j.groups, t, |j.groups|);
      if r in slot {
        var h :| 0 <= h < |slot| && slot[h] == r;
        SlotAt(j.groups, t, |j.groups|, h);
        PlacesDiffer(j.ranks, j.groups, j.local, g, s, h, t);
      }
    }
    JoinedSingle(Done2(j), ids, r, j.local, s);
    InterArIdAt(j.local, s);
    AfterSecond(j, g, s);
  }

  lemma {:induction false} ThirdInputs(j: Job, g: nat, s: nat)
    requires Valid(j) && g < |j.groups| && s < j.local && Independent(Third(j), g)
    ensures Of(PhaseInputs(Third(j)[g], Done2(j), j.inputs), j.groups[g][s]) ==
            ReducedShard(j.inputs, j.ranks, s, j.share)
  {
    ThirdIndependent(j, g);
    InputAt(Third(j)[g], Done2(j), j.inputs, j.groups[g][s]);
    JoinSecond(j, g, s);
  }

  lemma {:induction false} GroupFed(j: Job, g: nat)
    requires Valid(j) && g < |j.groups| && Independent(Third(j), g)
    ensures Sized(PhaseInputs(Third(j)[g], Done2(j), j.inputs), j.groups[g], j.share)
  {
    ThirdIndependent(j, g);
    var fed := PhaseInputs(Third(j)[g], Done2(j), j.inputs);
    forall r | r in j.groups[g]
      ensures r in fed && |fed[r]| == j.share
    {
      var s :| 0 <= s < |j.groups[g]| && j.groups[g][s] == r;
      ThirdInputs(j, g, s);
    }
  }

  /** A buffer whose blocks are all the shards of the sum is the whole sum. */
  lemma {:induction false} ShardsMakeWhole(output: Buffer, inputs: Buffers, ranks: seq<Rank>, n: nat, width: nat)
    requires |output| == n * width
    requires forall k :: 0 <= k < n ==> Window(output, k, width) == ReducedShard(inputs, ranks, k, width)
    ensures output == ReducedShard(inputs, ranks, 0, n * width)
  {
    var whole := ReducedShard(inputs, ranks, 0, n * width);
    forall p | 0 <= p < |output| ensures output[p] == whole[p] {
      var k := ShardFor(p, width, n);
      InShardIff(p, k, width);
      var q := p - k * width;
      ShardOf(p, k, width);
      assert Window(output, k, width)[q] == At(output, Offset(k, width, q));
      assert ReducedShard(inputs, ranks, k, width)[q] == Total(inputs, ranks, Offset(k, width, q));
      assert Offset(k, width, q) == p == Offset(0, n * width, p);
    }
  }

  lemma {:induction false} ThirdBlock(j: Job, g: nat, s: nat, k: nat)
    requires Valid(j) && g < |j.groups| && s < j.local && k < j.local
    ensures ResultOf(Done3(j), LocalAg(g)).Keys == set r | r in j.groups[g]
    ensures |Of(ResultOf(Done3(j), LocalAg(g)), j.groups[g][s])| == j.local * j.share
    ensures Window(Of(ResultOf(Done3(j), LocalAg(g)), j.groups[g][s]), k, j.share) ==
            ReducedShard(j.inputs, j.ranks, k, j.share)
  {
    hide Run, Window, ReducedShard, Distinct;
    ThirdIndependent(j, g);
    var fed := PhaseInputs(Third(j)[g], Done2(j), j.inputs);
    StageResult(Third(j), Done2(j), j.inputs, j.blank, g);
    GroupDistinct(j.ranks, j.groups, j.local, g);
    GroupFed(j, g);
    GatherPhase(LocalAg(g), j.groups[g], j.share, j.nodeOf, InterArIds(j.local), fed, j.blank, s, k);
    ThirdInputs(j, g, k);
  }

  /** After the local all-gather every rank holds the grid's whole sum. */
  lemma {:induction false} AfterThird(j: Job, g: nat, s: nat)
    requires Valid(j) && g < |j.groups| && s < j.local
    ensures ResultOf(Done3(j), LocalAg(g)).Keys == set r | r in j.groups[g]
    ensures Of(ResultOf(Done3(j), LocalAg(g)), j.groups[g][s]) == ReducedShard(j.inputs, j.ranks, 0, j.bytes)
  {
    var output := Of(ResultOf(Done3(j), LocalAg(g)), j.groups[g][s]);
    forall k | 0 <= k < j.local
      ensures Window(output, k, j.share) == ReducedShard(j.inputs, j.ranks, k, j.share)
    {
      ThirdBlock(j, g, s, k);
    }
    ThirdBlock(j, g, s, 0);
    ShardsMakeWhole(output, j.inputs, j.ranks, j.local, j.share);
  }

  // ----- the whole plan -----

  function Phases(j: Job): seq<TrafficPhase>
    requires Peopled(j.groups) && |j.groups| >= 1
  {
    First(j) + Second(j) + Third(j)
  }

  lemma {:induction false} PhaseCount(j: Job)
    requires Peopled(j.groups) && |j.groups| >= 1
    ensures |First(j)| == |Third(j)| == |j.groups| && |Second(j)| == j.local
    ensures |Phases(j)| == |j.groups| + j.local + |j.groups|
  {
    LocalRsAt(j.groups, j.bytes, j.nodeOf, |j.groups|, 0);
    InterArAt(j.groups, j.share, j.nodeOf, j.local, 0);
    LocalAgAt(j.groups, j.share, j.nodeOf, InterArIds(j.local), |j.groups|, 0);
  }

  function IdAt(n: nat, local: nat, k: nat): PhaseId {
    if k < n then LocalRs(k) else if k < n + local then InterAr(k - n) else LocalAg(k - n - local)
  }

  function PredecessorsAt(n: nat, local: nat, k: nat): seq<PhaseId> {
    if k < n then [] else if k < n + local then LocalRsIds(n) else InterArIds(local)
  }

  ghost predicate ShapeAt(phases: seq<TrafficPhase>, n: nat, local: nat, k: nat) {
    k < |phases| && phases[k].id == IdAt(n, local, k) && phases[k].predecessors == PredecessorsAt(n, local, k)
  }

  /** Which phase waits for which. */
  ghost predicate Shape(phases: seq<TrafficPhase>, n: nat, local: nat) {
    && |phases| == n + local + n
    && forall k :: 0 <= k < |phases| ==> ShapeAt(phases, n, local, k)
  }

  lemma {:induction false} PhasesShape(j: Job)
    requires Peopled(j.groups) && |j.groups| >= 1
    ensures Shape(Phases(j), |j.groups|, j.local)
  {
    var n := |j.groups|;
    PhaseCount(j);
    forall k | 0 <= k < |Phases(j)| ensures ShapeAt(Phases(j), n, j.local, k) {
      if k < n {
        LocalRsAt(j.groups, j.bytes, j.nodeOf, n, k);
      } else if k < n + j.local {
        InterArAt(j.groups, j.share, j.nodeOf, j.local, k - n);
        assert Phases(j)[k] == Second(j)[k - n];
      } else {
        LocalAgAt(j.groups, j.share, j.nodeOf, InterArIds(j.local), n, k - n - j.local);
        assert Phases(j)[k] == Third(j)[k - n - j.local];
      }
    }
  }

  lemma {:induction false} GatherIsSink(phases: seq<TrafficPhase>, n: nat, local: nat, g: nat)
    requires Shape(phases, n, local)
    ensures !Referenced(phases, LocalAg(g))
  {
    OnlyLocalRs(n, LocalAg(g));
    OnlyInterAr(local, LocalAg(g));
    forall k | 0 <= k < |phases| ensures LocalAg(g) !in phases[k].predecessors {
      assert ShapeAt(phases, n, local, k);
    }
  }

  lemma {:induction false} EarlierReferenced(phases: seq<TrafficPhase>, n: nat, local: nat, k: nat)
    requires Shape(phases, n, local) && n >= 1 && local >= 1 && k < n + local
    ensures Referenced(phases, phases[k].id)
  {
    assert ShapeAt(phases, n, local, k);
    if k < n {
      assert ShapeAt(phases, n, local, n);
      LocalRsIdAt(n, k);
      assert phases[k].id in phases[n].predecessors;
    } else {
      assert ShapeAt(phases, n, local, n + local);
      InterArIdAt(local, k - n);
      assert phases[k].id in phases[n + local].predecessors;
    }
  }

  /** A rank's outcome is what the local all-gather of its own node leaves. */
  lemma {:induction false} Conclude(phases: seq<TrafficPhase>, n: nat, local: nat, done: Results, r: Rank, g: nat)
    requires Shape(phases, n, local) && n >= 1 && local >= 1 && g < n
    requires forall h :: 0 <= h < n && h != g ==> Of(ResultOf(done, LocalAg(h)), r) == []
    ensures Final(phases, done, r) == Of(ResultOf(done, LocalAg(g)), r)
  {
    var last := n + local + g;
    assert ShapeAt(phases, n, local, last);
    GatherIsSink(phases, n, local, g);
    forall i | 0 <= i < |phases| && i != last ensures Silent(phases, done, r, i) {
      if i < n + local {
        EarlierReferenced(phases, n, local, i);
      } else {
        assert ShapeAt(phases, n, local, i);
      }
    }
    FinalIs(phases, done, r, last);
  }

  lemma {:induction false} OtherGather(j: Job, g: nat, s: nat, h: nat)
    requires Valid(j) && g < |j.groups| && s < j.local && h < |j.groups| && h != g
    ensures Of(ResultOf(Done3(j), LocalAg(h)), j.groups[g][s]) == []
  {
    AfterThird(j, h, 0);
    if j.groups[g][s] in j.groups[h] {
      var t :| 0 <= t < |j.groups[h]| && j.groups[h][t] == j.groups[g][s];
      PlacesDiffer(j.ranks, j.groups, j.local, g, s, h, t);
    }
  }

  lemma {:induction false} RunStages(j: Job)
    requires Peopled(j.groups) && |j.groups| >= 1
    ensures Run(Phases(j), map[], j.inputs, j.blank) == Done3(j)
  {
    RunConcat(First(j), Second(j), map[], j.inputs, j.blank);
    RunConcat(First(j) + Second(j), Third(j), map[], j.inputs, j.blank);
  }

  /** The hierarchical all-reduce leaves every participant with the sum over all participants. */
  lemma {:induction false} AllReduceHierarchy(j: Job, r: Rank)
    requires Valid(j) && r in j.ranks
    ensures Outcome(Phases(j), j.inputs, j.blank, r) == ReducedShard(j.inputs, j.ranks, 0, j.bytes)
  {
    var g, s := PlaceOf(j.ranks, j.groups, j.local, r);
    RunStages(j);
    PhasesShape(j);
    var done := Done3(j);
    forall h | 0 <= h < |j.groups| && h != g ensures Of(ResultOf(done, LocalAg(h)), r) == [] {
      OtherGather(j, g, s, h);
    }
    Conclude(Phases(j), |j.groups|, j.local, done, r, g);
    AfterThird(j, g, s);
  }
}
