/** Synthetic uniform routing: histograms per step, the cursor between steps, and the order of the experts. */
module ExpertRouting {
  import opened Common
  import opened ExpertDealing

  type Expert = nat

  // ----- the order of the experts -----

  /** The `i`-th expert of each of the first `n` ranks that has one. */
  function Row(groups: seq<seq<Expert>>, i: nat, n: nat): seq<Expert>
    requires n <= |groups|
  {
    if n == 0 then [] else Row(groups, i, n - 1) + (if i < |groups[n - 1]| then [groups[n - 1][i]] else [])
  }

  /** Rank by rank in each row: neighbours in the order are on different ranks. */
  function Interleaved(groups: seq<seq<Expert>>, rows: nat): seq<Expert> {
    if rows == 0 then [] else Interleaved(groups, rows - 1) + Row(groups, rows - 1, |groups|)
  }

  function Longest(groups: seq<seq<Expert>>, n: nat): (size: nat)
    requires n <= |groups|
    ensures forall g :: 0 <= g < n ==> |groups[g]| <= size
  {
    if n == 0 then 0 else Max(Longest(groups, n - 1), |groups[n - 1]|)
  }

  /** Every expert below `count` exactly once. */
  ghost predicate Covers(order: seq<Expert>, count: nat) {
    |order| == count && NoRepeats(order) && forall i :: 0 <= i < |order| ==> order[i] < count
  }

  /** The constructor's loops over rows and ranks, and its check. */
  method BuildOrder(count: nat, groups: seq<seq<Expert>>) returns (result: Result<seq<Expert>>)
    ensures result.Ok? <==> Covers(Interleaved(groups, Longest(groups, |groups|)), count)
    ensures result.Ok? ==> result.value == Interleaved(groups, Longest(groups, |groups|))
    ensures result.Err? ==> result.error == WorkloadValidationError
  {
    var order: seq<Expert> := [];
    var rows := Longest(groups, |groups|);
    for i := 0 to rows
      invariant order == Interleaved(groups, i)
    {
      var row: seq<Expert> := [];
      for g := 0 to |groups|
        invariant row == Row(groups, i, g)
      {
        if i < |groups[g]| { row := row + [groups[g][i]]; }
      }
      order := order + row;
    }
    var ok := CoversAll(order, count);
    result := if ok then Ok(order) else Err(WorkloadValidationError);
  }

  method CoversAll(order: seq<Expert>, count: nat) returns (ok: bool)
    ensures ok <==> Covers(order, count)
  {
    if |order| != count { return false; }
    var seen: set<Expert> := {};
    for i := 0 to |order|
      invariant forall e :: e in seen <==> e in order[..i]
      invariant NoRepeats(order[..i]) && forall k :: 0 <= k < i ==> order[k] < count
    {
      assert order[..i + 1] == order[..i] + [order[i]];
      if order[i] >= count { return false; }
      if order[i] in seen {
        var k :| 0 <= k < i && order[..i][k] == order[i];
        assert order[k] == order[i];
        return false;
      }
      seen := seen + {order[i]};
    }
    assert order[..|order|] == order;
    ok := true;
  }

  // ----- histograms -----

  type Histogram = map<Expert, nat>

  function Load(h: Histogram, e: Expert): nat {
    if e in h then h[e] else 0
  }

  /** `h` is what dealing `routes` one at a time from `place` on gives. */
  ghost predicate IsDeal(order: seq<Expert>, place: nat, routes: nat, h: Histogram)
    requires place < |order|
  {
    && (forall p :: 0 <= p < |order| ==> Load(h, order[p]) == Dealt(|order|, place, routes, p))
    && (forall e :: e in h ==> e in order)
  }

  /** `_uniform_histogram`: whole rounds for everybody, and one more for the experts the rest reaches. */
  method UniformHistogram(order: seq<Expert>, routes: nat, place: nat) returns (h: Histogram)
    requires place < |order| && NoRepeats(order)
    ensures IsDeal(order, place, routes, h)
  {
    hide PartlyDealt, IsDeal, After;
    var size := |order|;
    var base, rest := routes / size, routes % size;
    h := if base > 0 then map e | e in order :: base else map[];
    RoundsDealt(order, place, base, h);
    for index := 0 to rest
      invariant PartlyDealt(order, place, base, index, h)
    {
      AfterModulo(size, place, index);
      var expert := order[(place + index) % size];
      RouteDealt(order, place, base, index, h, expert);
      h := h[expert := base + 1];
    }
    AllDealt(order, place, base, rest, routes, h);
  }

  /** `base` rounds and `index` routes of the next one have been dealt. */
  ghost predicate PartlyDealt(order: seq<Expert>, place: nat, base: nat, index: nat, h: Histogram)
    requires place < |order|
  {
    && (forall p :: 0 <= p < |order| ==> Load(h, order[p]) == base + Dealt(|order|, place, index, p))
    && (forall e :: e in h ==> e in order)
  }

  lemma {:induction false} RoundsDealt(order: seq<Expert>, place: nat, base: nat, h: Histogram)
    requires place < |order| && h == if base > 0 then map e | e in order :: base else map[]
    ensures PartlyDealt(order, place, base, 0, h)
  {
  }

  lemma {:induction false} RouteDealt(order: seq<Expert>, place: nat, base: nat, index: nat, h: Histogram, expert: Expert)
    requires place < |order| && NoRepeats(order) && index < |order| && PartlyDealt(order, place, base, index, h)
    requires expert == order[After(|order|, place, index)]
    ensures PartlyDealt(order, place, base, index + 1, h[expert := base + 1])
  {
    hide Dealt, After;
    forall p | 0 <= p < |order| ensures Load(h[expert := base + 1], order[p]) == base + Dealt(|order|, place, index + 1, p) {
      OneMoreRoute(order, place, index, p);
    }
  }

  lemma {:induction false} AllDealt(order: seq<Expert>, place: nat, base: nat, rest: nat, routes: nat, h: Histogram)
    requires place < |order| && routes == base * |order| + rest && PartlyDealt(order, place, base, rest, h)
    ensures IsDeal(order, place, routes, h)
  {
    hide Dealt;
    forall p | 0 <= p < |order| ensures Load(h, order[p]) == Dealt(|order|, place, routes, p) {
      Rounds(|order|, place, base, rest, routes, p);
    }
  }

  /** Within a round a route goes to a place that has none yet. */
  lemma {:induction false} OneMoreRoute(order: seq<Expert>, place: nat, index: nat, p: nat)
    requires place < |order| && NoRepeats(order) && index < |order| && p < |order|
    ensures var hit := After(|order|, place, index);
      && (order[hit] == order[p] <==> hit == p)
      && Dealt(|order|, place, index + 1, p) == (if hit == p then 1 else Dealt(|order|, place, index, p))
  {
    var size, hit := |order|, After(|order|, place, index);
    DealtTwice(size, place, index, 1, p);
    assert Dealt(size, hit, 1, p) == if hit == p then 1 else 0;
    PartOfRound(size, place, index + 1, p);
  }

  // ----- steps -----

  function Routes(topK: nat, tokens: nat): nat {
    MulNonNegative(tokens, topK);
    tokens * topK
  }

  function AllRoutes(topK: nat, steps: seq<nat>): nat {
    if steps == [] then 0 else Routes(topK, steps[0]) + AllRoutes(topK, steps[1..])
  }

  lemma {:induction false} DealsAdd(order: seq<Expert>, place: nat, a: nat, b: nat, h: Histogram, more: Histogram, sum: Histogram)
    requires place < |order| && IsDeal(order, place, a, h) && IsDeal(order, After(|order|, place, a), b, more)
    requires (forall e :: Load(sum, e) == Load(h, e) + Load(more, e)) && forall e :: e in sum ==> e in order
    ensures IsDeal(order, place, a + b, sum)
  {
    forall p | 0 <= p < |order| ensures Load(sum, order[p]) == Dealt(|order|, place, a + b, p) { DealtTwice(|order|, place, a, b, p); }
  }

  class ExpertRouter {
    const order: seq<Expert>
    const topK: nat
    const limit: nat
    var cursor: nat
    var memo: map<(nat, nat), Histogram>

    ghost predicate Valid()
      reads this
    {
      && NoRepeats(order) && cursor < |order|
      && forall key :: key in memo ==> key.1 < |order| && IsDeal(order, key.1, key.0, memo[key])
    }

    /** The cursor starts at the seed. */
    constructor (experts: seq<Expert>, expertsPerToken: nat, seed: int, entries: nat)
      requires experts != [] && NoRepeats(experts)
      ensures Valid() && order == experts && topK == expertsPerToken && cursor == seed % |experts| && memo == map[]
    {
      order, topK, limit := experts, expertsPerToken, entries;
      cursor, memo := seed % |experts|, map[];
    }

    /** `synthetic_histogram`, through a memo that is cleared when full. */
    method SyntheticHistogram(tokens: int, offset: nat) returns (h: Histogram)
      requires Valid()
      modifies this`memo
      ensures Valid() && IsDeal(order, offset % |order|, Routes(topK, Max(0, tokens)), h)
    {
      hide IsDeal;
      var routes := Routes(topK, Max(0, tokens));
      var place := offset % |order|;
      if routes == 0 {
        NothingDealt(order, place);
        return map[];
      }
      if (routes, place) in memo { return memo[(routes, place)]; }
      h := UniformHistogram(order, routes, place);
      memo := (if |memo| >= limit then map[] else memo)[(routes, place) := h];
    }

    /** `histogram_for_step` for requests without a histogram of their own: the next step goes on where this one ends. */
    method HistogramForStep(tokens: nat) returns (h: Histogram)
      requires Valid()
      modifies this
      ensures Valid() && IsDeal(order, old(cursor), Routes(topK, tokens), h) && cursor == After(|order|, old(cursor), Routes(topK, tokens))
    {
      hide IsDeal, After, Routes;
      AfterModulo(|order|, cursor, Routes(topK, tokens));
      Inside(cursor, |order|);
      if tokens == 0 {
        NothingDealt(order, cursor);
        NoRoutes(topK);
        return map[];
      }
      h := SyntheticHistogram(tokens, cursor);
      cursor := (cursor + Routes(topK, tokens)) % |order|;
    }

    /** Over any sequence of steps the histograms add up to one deal of all routes. */
    method RunSteps(steps: seq<nat>) returns (totals: Histogram)
      requires Valid()
      modifies this
      ensures Valid() && IsDeal(order, old(cursor), AllRoutes(topK, steps), totals)
      ensures cursor == After(|order|, old(cursor), AllRoutes(topK, steps))
    {
      hide IsDeal, After;
      totals := map[];
      ghost var place: nat, sofar: nat := cursor, 0;
      NothingDealt(order, place);
      for i := 0 to |steps|
        invariant Valid() && IsDeal(order, place, sofar, totals) && cursor == After(|order|, place, sofar)
        invariant sofar + AllRoutes(topK, steps[i..]) == AllRoutes(topK, steps)
      {
        assert steps[i..][0] == steps[i] && steps[i..][1..] == steps[i + 1..];
        var h := HistogramForStep(steps[i]);
        var sum := Added(totals, h);
        Combined(order, place, sofar, Routes(topK, steps[i]), totals, h);
        AfterTwice(|order|, place, sofar, Routes(topK, steps[i]));
        totals, sofar := sum, sofar + Routes(topK, steps[i]);
      }
    }
  }

  lemma {:induction false} Inside(place: nat, size: nat)
    requires place < size
    ensures place % size == place
  {
  }

  lemma {:induction false} NoRoutes(topK: nat)
    ensures Routes(topK, 0) == 0
  {
  }

  function Added(a: Histogram, b: Histogram): Histogram {
    map e | e in a.Keys + b.Keys :: Load(a, e) + Load(b, e)
  }

  lemma {:induction false} Combined(order: seq<Expert>, place: nat, a: nat, b: nat, h: Histogram, more: Histogram)
    requires place < |order| && IsDeal(order, place, a, h) && IsDeal(order, After(|order|, place, a), b, more)
    ensures IsDeal(order, place, a + b, Added(h, more))
  {
    DealsAdd(order, place, a, b, h, more, Added(h, more));
  }

  lemma {:induction false} NothingDealt(order: seq<Expert>, place: nat)
    requires place < |order|
    ensures IsDeal(order, place, 0, map[]) && After(|order|, place, 0) == place
  {
  }

  // ----- how even it is -----

  /** Whatever the steps were, no two experts differ by more than one route. */
  lemma {:induction false} ExpertsEven(order: seq<Expert>, place: nat, routes: nat, totals: Histogram, a: Expert, b: Expert)
    requires place < |order| && IsDeal(order, place, routes, totals) && a in order && b in order
    ensures Load(totals, a) <= Load(totals, b) + 1
  {
    var p :| 0 <= p < |order| && order[p] == a;
    var q :| 0 <= q < |order| && order[q] == b;
    DealtEvenly(|order|, place, routes, p, q);
  }

  /** The routes to the first `n` experts of a rank. */
  function RankLoad(h: Histogram, experts: seq<Expert>, n: nat): nat
    requires n <= |experts|
  {
    if n == 0 then 0 else RankLoad(h, experts, n - 1) + Load(h, experts[n - 1])
  }

  ghost predicate EqualRanks(groups: seq<seq<Expert>>, rows: nat) {
    forall g :: 0 <= g < |groups| ==> |groups[g]| == rows
  }

  lemma {:induction false} RowAt(groups: seq<seq<Expert>>, i: nat, n: nat, g: nat)
    requires n <= |groups| && (forall k :: 0 <= k < |groups| ==> i < |groups[k]|) && g < n
    ensures |Row(groups, i, n)| == n && Row(groups, i, n)[g] == groups[g][i]
    decreases n
  {
    if n > 1 { RowAt(groups, i, n - 1, if g < n - 1 then g else 0); }
  }

  lemma {:induction false} OrderAt(groups: seq<seq<Expert>>, size: nat, rows: nat, i: nat, g: nat)
    requires EqualRanks(groups, size) && rows <= size && i < rows && g < |groups|
    ensures |Interleaved(groups, rows)| == rows * |groups| && 0 <= i * |groups| + g < rows * |groups|
    ensures Interleaved(groups, rows)[i * |groups| + g] == groups[g][i]
    decreases rows
  {
    var ranks := |groups|;
    RowAt(groups, rows - 1, ranks, g);
    assert rows * ranks == (rows - 1) * ranks + ranks;
    MulMono(i, rows - 1, ranks);
    MulNonNegative(i, ranks);
    if rows > 1 { OrderAt(groups, size, rows - 1, if i < rows - 1 then i else 0, if i < rows - 1 then g else 0); }
    if i < rows - 1 { MulMono(i + 1, rows - 1, ranks); }
  }

  lemma {:induction false} RankIsColumn(groups: seq<seq<Expert>>, size: nat, place: nat, routes: nat, totals: Histogram, g: nat, n: nat)
    requires EqualRanks(groups, size) && n <= size && g < |groups| && place < |Interleaved(groups, size)|
    requires IsDeal(Interleaved(groups, size), place, routes, totals)
    ensures RankLoad(totals, groups[g], n) == DealtToRank(|Interleaved(groups, size)|, place, routes, |groups|, g, n)
    decreases n
  {
    if n > 0 {
      RankIsColumn(groups, size, place, routes, totals, g, n - 1);
      OrderAt(groups, size, size, n - 1, g);
    }
  }

  /** When all ranks own equally many experts, no two ranks differ by more than one route either. */
  lemma {:induction false} RanksEven(groups: seq<seq<Expert>>, size: nat, place: nat, routes: nat, totals: Histogram, a: nat, b: nat)
    requires EqualRanks(groups, size) && a < |groups| && b < |groups| && place < |Interleaved(groups, size)|
    requires IsDeal(Interleaved(groups, size), place, routes, totals)
    ensures RankLoad(totals, groups[a], size) <= RankLoad(totals, groups[b], size) + 1
  {
    hide IsDeal;
    RankIsColumn(groups, size, place, routes, totals, a, size);
    RankIsColumn(groups, size, place, routes, totals, b, size);
    OrderSize(groups, size);
    var ranks, all := |groups|, |Interleaved(groups, size)|;
    DealtAroundRanks(all, place, routes, ranks, a, size);
    DealtAroundRanks(all, place, routes, ranks, b, size);
    DealtEvenly(ranks, place % ranks, routes, a, b);
  }

  lemma {:induction false} OrderSize(groups: seq<seq<Expert>>, size: nat)
    requires EqualRanks(groups, size) && groups != []
    ensures |Interleaved(groups, size)| == size * |groups|
  {
    if size > 0 { OrderAt(groups, size, size, 0, 0); }
  }
}
