/** One ring round, and what n-1 reducing or gathering rounds do to a single byte. */
module RingCorrectness {
  import opened Common
  import opened TrafficTypes
  import opened RingSemantics

  // ----- positions on the ring -----

  function Left(j: nat, n: nat): (i: nat)
    requires j < n
    ensures i < n
  {
    if j == 0 then n - 1 else j - 1
  }

  function Wrap(x: nat, n: nat): (i: nat)
    requires x < 2 * n
    ensures i < n
  {
    if x < n then x else x - n
  }

  /** Steps from `k` rightwards to `j`. */
  function Dist(j: nat, k: nat, n: nat): (d: nat)
    requires j < n && k < n
    ensures d < n
  {
    if j >= k then j - k else j - k + n
  }

  lemma {:induction false} ModWithin(x: int, n: int)
    requires 0 < n && -n <= x < n
    ensures x % n == if x < 0 then x + n else x
  {
    if x < 0 {
      assert (x + n) % n == x + n;
      assert x == n * (-1) + (x + n);
    }
  }

  /** Byte `p` lies in the k-th shard; the recursive form of `p / chunk == k`. */
  ghost predicate InShard(p: nat, k: nat, chunk: nat) {
    if k == 0 then p < chunk else p >= chunk && InShard(p - chunk, k - 1, chunk)
  }

  lemma {:induction false} InShardIff(p: nat, k: nat, chunk: nat)
    requires chunk > 0
    ensures InShard(p, k, chunk) <==> p / chunk == k
  {
    ShardOf(p, k, chunk);
    if k > 0 && p >= chunk {
      InShardIff(p - chunk, k - 1, chunk);
      ShardOf(p - chunk, k - 1, chunk);
    }
  }

  /** Every byte lies in one of the `n` shards. */
  lemma {:induction false} ShardFor(p: nat, chunk: nat, n: nat) returns (k: nat)
    requires p < n * chunk
    ensures k < n && InShard(p, k, chunk)
  {
    k := p / chunk;
    InShardIff(p, k, chunk);
    if k >= n { MulMono(n, k, chunk); }
  }

  lemma {:induction false} ColumnAt(buffers: Buffers, ranks: seq<Rank>, p: nat, n: nat, j: nat)
    requires j < n <= |ranks|
    ensures Column(buffers, ranks, p, n)[j] == At(Of(buffers, ranks[j]), p)
    decreases n
  {
    if j < n - 1 { ColumnAt(buffers, ranks, p, n - 1, j); }
  }

  // ----- one round -----

  lemma {:induction false} RoundMessage(ranks: seq<Rank>, nodeOf: map<Rank, Node>, chunk: nat, shift: int, n: nat, i: nat)
    requires i < n <= |ranks|
    ensures RingRound(ranks, nodeOf, chunk, shift, n)[i] == RingMessage(ranks, nodeOf, chunk, shift, i)
    decreases n
  {
    if i < n - 1 { RoundMessage(ranks, nodeOf, chunk, shift, n - 1, i); }
  }

  lemma {:induction false} MessageFields(ranks: seq<Rank>, nodeOf: map<Rank, Node>, chunk: nat, shift: int, i: nat)
    requires i < |ranks|
    ensures
      var m := RingMessage(ranks, nodeOf, chunk, shift, i);
      && m.source == ranks[i]
      && m.target == ranks[Wrap(i + 1, |ranks|)]
      && m.shard == Some(ShardRange((i - shift) % |ranks|, chunk))
  {
    if i + 1 < |ranks| { ModWithin(i + 1, |ranks|); }
  }

  /** Every index sends to its right neighbour. */
  ghost predicate Rightwards(messages: Round, ranks: seq<Rank>) {
    && |messages| == |ranks|
    && forall i :: 0 <= i < |ranks| ==>
         && messages[i].source == ranks[i]
         && messages[i].target == ranks[Wrap(i + 1, |ranks|)]
         && messages[i].shard.Some?
  }

  lemma {:induction false} RingRoundRightwards(ranks: seq<Rank>, nodeOf: map<Rank, Node>, chunk: nat, shift: int)
    ensures Rightwards(RingRound(ranks, nodeOf, chunk, shift, |ranks|), ranks)
  {
    var messages := RingRound(ranks, nodeOf, chunk, shift, |ranks|);
    forall i | 0 <= i < |ranks|
      ensures messages[i].source == ranks[i]
      ensures messages[i].target == ranks[Wrap(i + 1, |ranks|)]
      ensures messages[i].shard.Some?
    {
      RoundMessage(ranks, nodeOf, chunk, shift, |ranks|, i);
      MessageFields(ranks, nodeOf, chunk, shift, i);
    }
  }

  lemma {:induction false} DeliverPrefix(before: Buffers, ranks: seq<Rank>, messages: Round, reduce: bool, n: nat, j: nat)
    requires n <= |ranks| && j < |ranks| && Distinct(ranks) && Rightwards(messages, ranks) && ranks[j] in before
    ensures
      var i := Left(j, |ranks|);
      var m := messages[i];
      Deliver(before, messages, n, reduce)[ranks[j]] ==
      if i < n then Patch(before[ranks[j]], Of(before, ranks[i]), m.shard.value.0, m.shard.value.1, reduce)
      else before[ranks[j]]
    decreases n
  {
    if n > 0 {
      DeliverPrefix(before, ranks, messages, reduce, n - 1, j);
      assert messages[n - 1].target == ranks[Wrap(n, |ranks|)];
      assert Wrap(n, |ranks|) == j <==> n - 1 == Left(j, |ranks|);
      if messages[n - 1].target == ranks[j] { DistinctAt(ranks, Wrap(n, |ranks|), j); }
    }
  }

  /** After a round index `j` has merged in the shard its left neighbour sent. */
  lemma {:induction false} DeliverOne(before: Buffers, ranks: seq<Rank>, nodeOf: map<Rank, Node>,
                   chunk: nat, shift: int, reduce: bool, j: nat)
    requires j < |ranks| && Distinct(ranks) && ranks[j] in before
    ensures
      var i := Left(j, |ranks|);
      var (lo, hi) := ShardRange((i - shift) % |ranks|, chunk);
      Deliver(before, RingRound(ranks, nodeOf, chunk, shift, |ranks|), |ranks|, reduce)[ranks[j]] ==
      Patch(before[ranks[j]], Of(before, ranks[i]), lo, hi, reduce)
  {
    var messages := RingRound(ranks, nodeOf, chunk, shift, |ranks|);
    RingRoundRightwards(ranks, nodeOf, chunk, shift);
    DeliverPrefix(before, ranks, messages, reduce, |ranks|, j);
    var i := Left(j, |ranks|);
    RoundMessage(ranks, nodeOf, chunk, shift, |ranks|, i);
    MessageFields(ranks, nodeOf, chunk, shift, i);
  }

  /** One round seen at a single byte of shard `k`: the cells of all indices, before and after. */
  ghost predicate RingStep(now: seq<Cell>, next: seq<Cell>, k: nat, shift: nat, reduce: bool) {
    && k < |now| == |next|
    && forall j :: 0 <= j < |now| ==> next[j] == StepCell(now, k, shift, reduce, j)
  }

  function StepCell(cells: seq<Cell>, k: nat, shift: nat, reduce: bool, j: nat): Cell
    requires k < |cells| && j < |cells|
  {
    var i := Left(j, |cells|);
    if Dist(i, k, |cells|) != shift then cells[j] else if reduce then cells[j] + cells[i] else cells[i]
  }

  lemma {:induction false} PatchedAt(own: Buffer, sent: Buffer, n: nat, i: nat, k: nat, chunk: nat, shift: nat, reduce: bool, p: nat)
    requires chunk > 0 && i < n && k < n && shift < n && InShard(p, k, chunk) && p < |own|
    ensures
      var (lo, hi) := ShardRange((i - shift) % n, chunk);
      Patch(own, sent, lo, hi, reduce)[p] ==
      if Dist(i, k, n) != shift then own[p] else if reduce then own[p] + At(sent, p) else At(sent, p)
  {
    ModWithin(i - shift, n);
    InShardIff(p, k, chunk);
    ShardOf(p, (i - shift) % n, chunk);
  }

  lemma {:induction false} DeliverCell(before: Buffers, ranks: seq<Rank>, nodeOf: map<Rank, Node>,
                    chunk: nat, shift: nat, reduce: bool, p: nat, k: nat, j: nat)
    requires j < |ranks| && Distinct(ranks) && ranks[j] in before && p < |before[ranks[j]]|
    requires chunk > 0 && shift < |ranks| && InShard(p, k, chunk) && k < |ranks|
    ensures
      var i := Left(j, |ranks|);
      var own, sent := At(before[ranks[j]], p), At(Of(before, ranks[i]), p);
      At(Deliver(before, RingRound(ranks, nodeOf, chunk, shift, |ranks|), |ranks|, reduce)[ranks[j]], p) ==
      if Dist(i, k, |ranks|) != shift then own else if reduce then own + sent else sent
  {
    var i := Left(j, |ranks|);
    DeliverOne(before, ranks, nodeOf, chunk, shift, reduce, j);
    PatchedAt(before[ranks[j]], Of(before, ranks[i]), |ranks|, i, k, chunk, shift, reduce, p);
  }

  lemma {:induction false} DeliverRound(before: Buffers, ranks: seq<Rank>, nodeOf: map<Rank, Node>,
                     chunk: nat, shift: nat, reduce: bool, size: nat, p: nat, k: nat)
    requires Distinct(ranks) && Sized(before, ranks, size)
    requires chunk > 0 && shift < |ranks| && p < size && InShard(p, k, chunk) && k < |ranks|
    ensures
      var after := Deliver(before, RingRound(ranks, nodeOf, chunk, shift, |ranks|), |ranks|, reduce);
      RingStep(Column(before, ranks, p, |ranks|), Column(after, ranks, p, |ranks|), k, shift, reduce)
  {
    var after := Deliver(before, RingRound(ranks, nodeOf, chunk, shift, |ranks|), |ranks|, reduce);
    var now, next := Column(before, ranks, p, |ranks|), Column(after, ranks, p, |ranks|);
    forall j | 0 <= j < |ranks|
      ensures next[j] == StepCell(now, k, shift, reduce, j)
    {
      DeliverCell(before, ranks, nodeOf, chunk, shift, reduce, p, k, j);
      ColumnAt(before, ranks, p, |ranks|, j);
      ColumnAt(before, ranks, p, |ranks|, Left(j, |ranks|));
      ColumnAt(after, ranks, p, |ranks|, j);
    }
  }

  // ----- the reducing rounds -----

  /** The `count` cells from `start` rightwards. */
  function ArcSum(cells: seq<Cell>, start: nat, count: nat): Cell
    requires start < |cells| && count <= |cells|
  {
    if count == 0 then 0
    else ArcSum(cells, start, count - 1) + cells[Wrap(start + count - 1, |cells|)]
  }

  lemma {:induction false} SumOfConcat(a: seq<Cell>, b: seq<Cell>)
    ensures Sum(a + b) == Sum(a) + Sum(b)
  {
    if b == [] {
      assert a + b == a;
    } else {
      assert (a + b)[..|a + b| - 1] == a + b[..|b| - 1];
      SumOfConcat(a, b[..|b| - 1]);
    }
  }

  lemma {:induction false} ArcWithin(cells: seq<Cell>, start: nat, count: nat)
    requires start < |cells| && start + count <= |cells|
    ensures ArcSum(cells, start, count) == Sum(cells[start..start + count])
  {
    if count > 0 {
      ArcWithin(cells, start, count - 1);
      var arc := cells[start..start + count];
      assert arc[..|arc| - 1] == cells[start..start + count - 1];
    }
  }

  lemma {:induction false} ArcAround(cells: seq<Cell>, start: nat, count: nat)
    requires start < |cells| && |cells| - start <= count <= |cells|
    ensures ArcSum(cells, start, count) == Sum(cells[start..]) + Sum(cells[..start + count - |cells|])
  {
    var rest := start + count - |cells|;
    if rest == 0 {
      ArcWithin(cells, start, count);
      assert cells[start..start + count] == cells[start..];
    } else {
      ArcAround(cells, start, count - 1);
      assert cells[..rest][..rest - 1] == cells[..rest - 1];
    }
  }

  /** Going once round the ring collects every contribution exactly once. */
  lemma {:induction false} FullArc(cells: seq<Cell>, start: nat)
    requires start < |cells|
    ensures ArcSum(cells, start, |cells|) == Sum(cells)
  {
    ArcAround(cells, start, |cells|);
    assert cells[..start] + cells[start..] == cells;
    SumOfConcat(cells[..start], cells[start..]);
  }

  /** A byte of shard `k` at index `j` after `t` reducing rounds: the index right of `k` starts,
      and the partial sum has travelled `t` steps from there. */
  function PartCell(cells: seq<Cell>, k: nat, t: nat, j: nat): Cell
    requires k < |cells| && j < |cells|
  {
    var start := Wrap(k + 1, |cells|);
    var d := Dist(j, start, |cells|);
    if d <= t then ArcSum(cells, start, d + 1) else cells[j]
  }

  lemma {:induction false} ReduceStart(cells: seq<Cell>, k: nat, j: nat)
    requires k < |cells| && j < |cells|
    ensures PartCell(cells, k, 0, j) == cells[j]
  {
    var start := Wrap(k + 1, |cells|);
    assert ArcSum(cells, start, 0 + 1) == ArcSum(cells, start, 0) + cells[start];
  }

  lemma {:induction false} ReduceStep(cells: seq<Cell>, now: seq<Cell>, k: nat, t: nat, j: nat)
    requires k < |cells| == |now| && t + 1 < |cells| && j < |cells|
    requires now[j] == PartCell(cells, k, t, j)
    requires now[Left(j, |cells|)] == PartCell(cells, k, t, Left(j, |cells|))
    ensures StepCell(now, k, t + 1, true, j) == PartCell(cells, k, t + 1, j)
  {
    var n := |cells|;
    var start, i := Wrap(k + 1, n), Left(j, n);
    var d := Dist(j, start, n);
    assert Dist(i, k, n) == t + 1 <==> d == t + 1;
    if d == t + 1 {
      assert Dist(i, start, n) == t;
      assert Wrap(start + (t + 2) - 1, n) == j;
    }
  }

  /** The cells of one byte round by round. */
  type History = h: seq<seq<Cell>> | |h| > 0 && forall t :: 0 <= t < |h| ==> |h[t]| == |h[0]| witness [[]]

  ghost predicate ReducesAt(h: History, k: nat, u: nat) {
    u + 1 < |h| && RingStep(h[u], h[u + 1], k, u + 1, true)
  }

  ghost predicate GathersAt(h: History, k: nat, from: nat, u: nat) {
    from <= u && u + 1 < |h| && RingStep(h[u], h[u + 1], k, u - from, false)
  }

  lemma {:induction false} ReduceHistory(h: History, k: nat, t: nat, j: nat)
    requires k < |h[0]| && j < |h[0]| && t < |h| && t < |h[0]|
    requires forall u :: 0 <= u < t ==> ReducesAt(h, k, u)
    ensures h[t][j] == PartCell(h[0], k, t, j)
  {
    if t == 0 {
      ReduceStart(h[0], k, j);
    } else {
      ReduceHistory(h, k, t - 1, j);
      ReduceHistory(h, k, t - 1, Left(j, |h[0]|));
      assert ReducesAt(h, k, t - 1);
      ReduceStep(h[0], h[t - 1], k, t - 1, j);
    }
  }

  /** After n-1 reducing rounds index `k` holds all contributions to its own shard. */
  lemma {:induction false} ReducedHistory(h: History, k: nat)
    requires k < |h[0]| <= |h|
    requires forall u :: 0 <= u < |h[0]| - 1 ==> ReducesAt(h, k, u)
    ensures h[|h[0]| - 1][k] == Sum(h[0])
  {
    var n := |h[0]|;
    ReduceHistory(h, k, n - 1, k);
    assert Dist(k, Wrap(k + 1, n), n) == n - 1;
    FullArc(h[0], Wrap(k + 1, n));
  }

  // ----- the gathering rounds -----

  /** After `t` gathering rounds the `t` indices right of `k` hold what `k` held at the start. */
  lemma {:induction false} GatherHistory(h: History, k: nat, from: nat, t: nat, j: nat)
    requires k < |h[0]| && j < |h[0]| && from + t < |h| && t < |h[0]|
    requires forall u :: from <= u < from + t ==> GathersAt(h, k, from, u)
    requires Dist(j, k, |h[0]|) <= t
    ensures h[from + t][j] == h[from][k]
  {
    if t > 0 {
      var u, i := t - 1, Left(j, |h[0]|);
      assert GathersAt(h, k, from, from + u);
      assert h[from + t][j] == StepCell(h[from + u], k, u, false, j);
      if Dist(i, k, |h[0]|) == u {
        GatherHistory(h, k, from, u, i);
      } else {
        GatherHistory(h, k, from, u, j);
      }
    }
  }
}
