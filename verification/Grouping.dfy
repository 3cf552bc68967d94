/** Grouping participants by node loses and duplicates nobody. */
module Grouping {
  import opened Common
  import opened TrafficTypes
  import opened RingSemantics
  import opened CollectivePlan

  // ----- permutations -----

  lemma {:induction false} DistinctCount<T>(s: seq<T>, x: T)
    requires Distinct(s)
    ensures multiset(s)[x] <= 1
  {
    if s != [] {
      var front := s[..|s| - 1];
      assert s == front + [s[|s| - 1]];
      DistinctCount(front, x);
    }
  }

  lemma {:induction false} CountDistinct<T>(s: seq<T>)
    requires forall x :: multiset(s)[x] <= 1
    ensures Distinct(s)
  {
    if s != [] {
      var front, last := s[..|s| - 1], s[|s| - 1];
      assert s == front + [last];
      assert multiset(s)[last] <= 1;
      forall x ensures multiset(front)[x] <= 1 { assert multiset(s)[x] <= 1; }
      CountDistinct(front);
    }
  }

  /** A permutation of distinct elements is distinct. */
  lemma {:induction false} PermutationDistinct<T>(a: seq<T>, b: seq<T>)
    requires Distinct(a) && multiset(a) == multiset(b)
    ensures Distinct(b)
  {
    forall x ensures multiset(b)[x] <= 1 { DistinctCount(a, x); }
    CountDistinct(b);
  }

  lemma {:induction false} PermutationMembers<T>(a: seq<T>, b: seq<T>, x: T)
    requires multiset(a) == multiset(b)
    ensures x in a <==> x in b
  {
    assert x in a <==> x in multiset(a);
    assert x in b <==> x in multiset(b);
  }

  lemma {:induction false} TotalOfConcat(buffers: Buffers, a: seq<Rank>, b: seq<Rank>, all: seq<Rank>, p: nat)
    requires all == a + b
    ensures Total(buffers, all, p) == Total(buffers, a, p) + Total(buffers, b, p)
    decreases |b|
  {
    if b == [] {
      assert all == a;
    } else {
      var shorter := all[..|all| - 1];
      assert shorter == a + b[..|b| - 1];
      TotalOfConcat(buffers, a, b[..|b| - 1], shorter, p);
    }
  }

  lemma {:induction false} RemoveOne(a: seq<Rank>, b: seq<Rank>, j: nat)
    requires a != [] && multiset(a) == multiset(b) && j < |b| && b[j] == a[|a| - 1]
    ensures multiset(a[..|a| - 1]) == multiset(b[..j] + b[j + 1..])
  {
    var front, last := a[..|a| - 1], a[|a| - 1];
    assert a == front + [last];
    assert b == b[..j] + [last] + b[j + 1..];
    assert multiset(front) == multiset(a) - multiset{last};
    assert multiset(b[..j] + b[j + 1..]) == multiset(b) - multiset{last};
  }

  lemma {:induction false} TotalWithout(buffers: Buffers, b: seq<Rank>, j: nat, p: nat)
    requires j < |b|
    ensures Total(buffers, b, p) == Total(buffers, b[..j] + b[j + 1..], p) + At(Of(buffers, b[j]), p)
  {
    assert b == b[..j + 1] + b[j + 1..];
    assert b[..j + 1][..j] == b[..j];
    TotalOfConcat(buffers, b[..j + 1], b[j + 1..], b, p);
    TotalOfConcat(buffers, b[..j], b[j + 1..], b[..j] + b[j + 1..], p);
  }

  /** A reduction does not depend on the order of its participants. */
  lemma {:induction false} TotalOfPermutation(buffers: Buffers, a: seq<Rank>, b: seq<Rank>, p: nat)
    requires multiset(a) == multiset(b)
    ensures Total(buffers, a, p) == Total(buffers, b, p)
  {
    if a == [] {
      assert |multiset(b)| == 0;
      assert b == [];
    } else {
      var last := a[|a| - 1];
      PermutationMembers(a, b, last);
      var j :| 0 <= j < |b| && b[j] == last;
      RemoveOne(a, b, j);
      TotalOfPermutation(buffers, a[..|a| - 1], b[..j] + b[j + 1..], p);
      TotalWithout(buffers, b, j, p);
    }
  }

  // ----- node order -----

  ghost predicate Ascending(nodes: seq<Node>) {
    forall i, j :: 0 <= i < j < |nodes| ==> nodes[i] < nodes[j]
  }

  lemma {:induction false} InsertMember(nodes: seq<Node>, x: Node, y: Node)
    ensures y in Insert(nodes, x) <==> y == x || y in nodes
  {
    if nodes != [] && x > nodes[0] { InsertMember(nodes[1..], x, y); }
  }

  lemma {:induction false} InsertAscending(nodes: seq<Node>, x: Node)
    requires Ascending(nodes)
    ensures Ascending(Insert(nodes, x))
  {
    if nodes != [] && x > nodes[0] {
      InsertAscending(nodes[1..], x);
      var rest := Insert(nodes[1..], x);
      forall i | 0 <= i < |rest| ensures nodes[0] < rest[i] {
        InsertMember(nodes[1..], x, rest[i]);
      }
    }
  }

  lemma {:induction false} NodeOrderAscending(ranks: seq<Rank>, nodeOf: map<Rank, Node>, n: nat)
    requires n <= |ranks|
    ensures Ascending(NodeOrder(ranks, nodeOf, n))
    decreases n
  {
    if n > 0 {
      NodeOrderAscending(ranks, nodeOf, n - 1);
      InsertAscending(NodeOrder(ranks, nodeOf, n - 1), Home(nodeOf, ranks[n - 1]));
    }
  }

  lemma {:induction false} NodeOrderCovers(ranks: seq<Rank>, nodeOf: map<Rank, Node>, n: nat, i: nat)
    requires i < n <= |ranks|
    ensures Home(nodeOf, ranks[i]) in NodeOrder(ranks, nodeOf, n)
    decreases n
  {
    InsertMember(NodeOrder(ranks, nodeOf, n - 1), Home(nodeOf, ranks[n - 1]), Home(nodeOf, ranks[i]));
    if i < n - 1 { NodeOrderCovers(ranks, nodeOf, n - 1, i); }
  }

  lemma {:induction false} NodeOrderSound(ranks: seq<Rank>, nodeOf: map<Rank, Node>, n: nat, node: Node) returns (i: nat)
    requires n <= |ranks| && node in NodeOrder(ranks, nodeOf, n)
    ensures i < n && Home(nodeOf, ranks[i]) == node
    decreases n
  {
    InsertMember(NodeOrder(ranks, nodeOf, n - 1), Home(nodeOf, ranks[n - 1]), node);
    if Home(nodeOf, ranks[n - 1]) == node {
      i := n - 1;
    } else {
      i := NodeOrderSound(ranks, nodeOf, n - 1, node);
    }
  }

  // ----- the groups partition the participants -----

  lemma {:induction false} OnNodeCount(ranks: seq<Rank>, nodeOf: map<Rank, Node>, node: Node, n: nat, r: Rank)
    requires n <= |ranks|
    ensures multiset(OnNode(ranks, nodeOf, node, n))[r] ==
            if Home(nodeOf, r) == node then multiset(ranks[..n])[r] else 0
    decreases n
  {
    if n > 0 {
      OnNodeCount(ranks, nodeOf, node, n - 1, r);
      assert ranks[..n] == ranks[..n - 1] + [ranks[n - 1]];
    }
  }

  lemma {:induction false} GroupAt(ranks: seq<Rank>, nodeOf: map<Rank, Node>, nodes: seq<Node>, g: nat)
    requires g < |nodes|
    ensures GroupsOf(ranks, nodeOf, nodes)[g] == OnNode(ranks, nodeOf, nodes[g], |ranks|)
  {
    if g < |nodes| - 1 { GroupAt(ranks, nodeOf, nodes[..|nodes| - 1], g); }
  }

  lemma {:induction false} FlattenPrefix(a: seq<seq<Rank>>, b: seq<seq<Rank>>, n: nat)
    requires n <= |a| && n <= |b| && forall g :: 0 <= g < n ==> a[g] == b[g]
    ensures Flatten(a, n) == Flatten(b, n)
    decreases n
  {
    if n > 0 { FlattenPrefix(a, b, n - 1); }
  }

  lemma {:induction false} NoGroups(ranks: seq<Rank>, nodeOf: map<Rank, Node>)
    ensures Flatten(GroupsOf(ranks, nodeOf, []), 0) == []
  {
  }

  lemma {:induction false} OneMoreGroup(ranks: seq<Rank>, nodeOf: map<Rank, Node>, nodes: seq<Node>, front: seq<Node>, last: Node, r: Rank)
    requires nodes == front + [last]
    ensures multiset(Flatten(GroupsOf(ranks, nodeOf, nodes), |nodes|))[r] ==
            multiset(Flatten(GroupsOf(ranks, nodeOf, front), |front|))[r] + multiset(OnNode(ranks, nodeOf, last, |ranks|))[r]
  {
    hide OnNode;
    assert nodes[..|nodes| - 1] == front;
    FlattenPrefix(GroupsOf(ranks, nodeOf, nodes), GroupsOf(ranks, nodeOf, front), |front|);
  }

  lemma {:induction false} GroupsCount(ranks: seq<Rank>, nodeOf: map<Rank, Node>, nodes: seq<Node>, r: Rank)
    requires Ascending(nodes)
    ensures multiset(Flatten(GroupsOf(ranks, nodeOf, nodes), |nodes|))[r] ==
            if Home(nodeOf, r) in nodes then multiset(ranks)[r] else 0
  {
    hide GroupsOf, OnNode, Home;
    if nodes == [] {
      NoGroups(ranks, nodeOf);
    } else {
      var front, last := nodes[..|nodes| - 1], nodes[|nodes| - 1];
      GroupsCount(ranks, nodeOf, front, r);
      OneMoreGroup(ranks, nodeOf, nodes, front, last, r);
      OnNodeCount(ranks, nodeOf, last, |ranks|, r);
      assert ranks[..|ranks|] == ranks;
      assert nodes == front + [last];
    }
  }

  /** Every participant is in exactly one group, exactly once. */
  lemma {:induction false} GroupsPartition(ranks: seq<Rank>, nodeOf: map<Rank, Node>)
    ensures multiset(Flatten(Groups(ranks, nodeOf), |Groups(ranks, nodeOf)|)) == multiset(ranks)
  {
    var groups := Groups(ranks, nodeOf);
    var nodes := NodeOrder(ranks, nodeOf, |ranks|);
    NodeOrderAscending(ranks, nodeOf, |ranks|);
    forall r
      ensures multiset(Flatten(groups, |groups|))[r] == multiset(ranks)[r]
    {
      GroupsCount(ranks, nodeOf, nodes, r);
      if r in ranks {
        var i :| 0 <= i < |ranks| && ranks[i] == r;
        NodeOrderCovers(ranks, nodeOf, |ranks|, i);
      }
    }
  }

  lemma {:induction false} GroupsPeopled(ranks: seq<Rank>, nodeOf: map<Rank, Node>)
    ensures Peopled(Groups(ranks, nodeOf))
    ensures |ranks| >= 1 ==> |Groups(ranks, nodeOf)| >= 1
  {
    var groups, nodes := Groups(ranks, nodeOf), NodeOrder(ranks, nodeOf, |ranks|);
    if |ranks| >= 1 { NodeOrderCovers(ranks, nodeOf, |ranks|, 0); }
    forall g | 0 <= g < |groups|
      ensures |groups[g]| >= 1
    {
      GroupAt(ranks, nodeOf, nodes, g);
      var i := NodeOrderSound(ranks, nodeOf, |ranks|, nodes[g]);
      OnNodeCount(ranks, nodeOf, nodes[g], |ranks|, ranks[i]);
      assert ranks[..|ranks|] == ranks;
      assert ranks[i] in multiset(ranks);
      assert ranks[i] in multiset(groups[g]);
    }
  }
}
