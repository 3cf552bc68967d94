/** Participants laid out as nodes by slots. */
module Grid {
  import opened Common
  import opened TrafficTypes
  import opened RingSemantics
  import opened RingCorrectness
  import opened RingResults
  import opened CollectivePlan
  import opened Grouping

  /** `groups` is `ranks` split into equally large groups. */
  ghost predicate IsGrid(ranks: seq<Rank>, groups: seq<seq<Rank>>, local: nat) {
    && Distinct(ranks) && |groups| >= 1 && local >= 1
    && Rectangular(groups, local)
    && multiset(Flatten(groups, |groups|)) == multiset(ranks)
  }

  lemma {:induction false} FlattenAt(groups: seq<seq<Rank>>, local: nat, n: nat, g: nat, s: nat)
    requires n <= |groups| && Rectangular(groups, local)
    ensures |Flatten(groups, n)| == n * local
    ensures g < n && s < local ==> Offset(g, local, s) < n * local && Flatten(groups, n)[Offset(g, local, s)] == groups[g][s]
    decreases n
  {
    if n > 0 {
      FlattenAt(groups, local, n - 1, g, s);
      assert n * local == (n - 1) * local + local;
      if g < n - 1 && s < local { MulMono(g + 1, n - 1, local); }
    }
  }

  lemma {:induction false} OffsetInjective(g: nat, h: nat, local: nat, s: nat, t: nat)
    requires s < local && t < local && Offset(g, local, s) == Offset(h, local, t)
    ensures g == h && s == t
  {
    ShardOf(Offset(g, local, s), g, local);
    ShardOf(Offset(g, local, s), h, local);
  }

  /** No two places of the grid hold the same rank. */
  lemma {:induction false} PlacesDiffer(ranks: seq<Rank>, groups: seq<seq<Rank>>, local: nat, g: nat, s: nat, h: nat, t: nat)
    requires IsGrid(ranks, groups, local)
    requires g < |groups| && h < |groups| && s < local && t < local && groups[g][s] == groups[h][t]
    ensures g == h && s == t
  {
    var flat := Flatten(groups, |groups|);
    PermutationDistinct(ranks, flat);
    FlattenAt(groups, local, |groups|, g, s);
    FlattenAt(groups, local, |groups|, h, t);
    DistinctAt(flat, Offset(g, local, s), Offset(h, local, t));
    OffsetInjective(g, h, local, s, t);
  }

  lemma {:induction false} GroupDistinct(ranks: seq<Rank>, groups: seq<seq<Rank>>, local: nat, g: nat)
    requires IsGrid(ranks, groups, local) && g < |groups|
    ensures Distinct(groups[g])
  {
    forall s, t | 0 <= s < t < |groups[g]| ensures groups[g][s] != groups[g][t] {
      if groups[g][s] == groups[g][t] { PlacesDiffer(ranks, groups, local, g, s, g, t); }
    }
    DistinctIf(groups[g]);
  }

  lemma {:induction false} SlotAt(groups: seq<seq<Rank>>, s: nat, n: nat, g: nat)
    requires g < n
    ensures Slot(groups, s, n)[g] == Member(groups, g, s)
    decreases n
  {
    if g < n - 1 { SlotAt(groups, s, n - 1, g); }
  }

  lemma {:induction false} SlotDistinct(ranks: seq<Rank>, groups: seq<seq<Rank>>, local: nat, s: nat)
    requires IsGrid(ranks, groups, local) && s < local
    ensures Distinct(Slot(groups, s, |groups|))
  {
    var slot := Slot(groups, s, |groups|);
    forall g, h | 0 <= g < h < |slot| ensures slot[g] != slot[h] {
      SlotAt(groups, s, |groups|, g);
      SlotAt(groups, s, |groups|, h);
      if slot[g] == slot[h] { PlacesDiffer(ranks, groups, local, g, s, h, s); }
    }
    DistinctIf(slot);
  }

  /** Every participant has a place. */
  lemma {:induction false} PlaceOf(ranks: seq<Rank>, groups: seq<seq<Rank>>, local: nat, r: Rank) returns (g: nat, s: nat)
    requires IsGrid(ranks, groups, local) && r in ranks
    ensures g < |groups| && s < local && groups[g][s] == r
  {
    PermutationMembers(ranks, Flatten(groups, |groups|), r);
    g, s := FlattenPlace(groups, local, |groups|, r);
  }

  lemma {:induction false} FlattenPlace(groups: seq<seq<Rank>>, local: nat, n: nat, r: Rank) returns (g: nat, s: nat)
    requires n <= |groups| && Rectangular(groups, local) && r in Flatten(groups, n)
    ensures g < n && s < local && groups[g][s] == r
    decreases n
  {
    if r in groups[n - 1] {
      g := n - 1;
      s :| 0 <= s < |groups[n - 1]| && groups[n - 1][s] == r;
    } else {
      g, s := FlattenPlace(groups, local, n - 1, r);
    }
  }

  lemma {:induction false} PlaceInside(ranks: seq<Rank>, groups: seq<seq<Rank>>, local: nat, g: nat, s: nat)
    requires IsGrid(ranks, groups, local) && g < |groups| && s < local
    ensures groups[g][s] in ranks
  {
    var flat := Flatten(groups, |groups|);
    FlattenAt(groups, local, |groups|, g, s);
    PermutationMembers(ranks, flat, groups[g][s]);
  }

  lemma {:induction false} GridCount(ranks: seq<Rank>, groups: seq<seq<Rank>>, local: nat)
    requires IsGrid(ranks, groups, local)
    ensures |ranks| == |groups| * local
  {
    FlattenAt(groups, local, |groups|, 0, 0);
    assert |multiset(ranks)| == |ranks|;
    assert |multiset(Flatten(groups, |groups|))| == |Flatten(groups, |groups|)|;
  }

  /** Sum over the first `n` groups of each group's total. */
  function GroupTotals(buffers: Buffers, groups: seq<seq<Rank>>, n: nat, p: nat): Cell
    requires n <= |groups|
  {
    if n == 0 then 0 else GroupTotals(buffers, groups, n - 1, p) + Total(buffers, groups[n - 1], p)
  }

  lemma {:induction false} TotalByGroups(buffers: Buffers, groups: seq<seq<Rank>>, n: nat, p: nat, flat: seq<Rank>)
    requires n <= |groups| && flat == Flatten(groups, n)
    ensures GroupTotals(buffers, groups, n, p) == Total(buffers, flat, p)
    decreases n
  {
    if n > 0 {
      var front, last := Flatten(groups, n - 1), groups[n - 1];
      TotalByGroups(buffers, groups, n - 1, p, front);
      TotalOfConcat(buffers, front, last, flat, p);
    }
  }

  /** Adding up the groups' totals counts every participant once. */
  lemma {:induction false} GridTotal(buffers: Buffers, ranks: seq<Rank>, groups: seq<seq<Rank>>, local: nat, p: nat)
    requires IsGrid(ranks, groups, local)
    ensures GroupTotals(buffers, groups, |groups|, p) == Total(buffers, ranks, p)
  {
    TotalByGroups(buffers, groups, |groups|, p, Flatten(groups, |groups|));
    TotalOfPermutation(buffers, ranks, Flatten(groups, |groups|), p);
  }

  /** Byte `q` of the s-th member of group `g` is that group's total at byte `p`. */
  ghost predicate HoldsTotal(partial: Buffers, q: nat, buffers: Buffers, groups: seq<seq<Rank>>, s: nat, g: nat, p: nat) {
    g < |groups| && At(Of(partial, Member(groups, g, s)), q) == Total(buffers, groups[g], p)
  }

  /** If every member of a slot holds its group's total, then the slot's total is the grid's total. */
  lemma {:induction false} SlotTotal(partial: Buffers, q: nat, buffers: Buffers, groups: seq<seq<Rank>>, s: nat, n: nat, p: nat)
    requires n <= |groups|
    requires forall g :: 0 <= g < n ==> HoldsTotal(partial, q, buffers, groups, s, g, p)
    ensures Total(partial, Slot(groups, s, n), q) == GroupTotals(buffers, groups, n, p)
    decreases n
  {
    if n > 0 {
      SlotTotal(partial, q, buffers, groups, s, n - 1, p);
      assert HoldsTotal(partial, q, buffers, groups, s, n - 1, p);
      TotalAppend(partial, Slot(groups, s, n - 1), Member(groups, n - 1, s), q);
    }
  }
}
