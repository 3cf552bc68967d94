/** The loops of `all_to_all_plan`: one pass over the participants fills the message lists of all phases. */
module AllToAllBuilder {
  import opened Common
  import opened TrafficTypes
  import opened CollectivePlan
  import opened Collectives
  import opened Grouping
  import opened Grid
  import opened AllToAll

  // ----- participants in the order of their groups -----

  function HomeOf(l: Placement, i: nat): nat
    requires i < |l.ranks|
  {
    HomeIndex(l, l.ranks[i], |l.groups|)
  }

  /** How many of the first `n` participants are in group `g`. */
  function Seen(l: Placement, n: nat, g: nat): nat
    requires n <= |l.ranks|
  {
    if n == 0 then 0 else Seen(l, n - 1, g) + (if HomeOf(l, n - 1) == g then 1 else 0)
  }

  /** The `i`-th participant is the next one of its group. */
  ghost predicate NextInGroup(l: Placement, i: nat)
    requires i < |l.ranks|
  {
    var g := HomeOf(l, i);
    g < |l.groups| && Seen(l, i, g) < l.local && Member(l.groups, g, Seen(l, i, g)) == l.ranks[i]
  }

  /** Groups list their members in participant order, and list them all. */
  ghost predicate Listed(l: Placement) {
    && (forall i :: 0 <= i < |l.ranks| ==> NextInGroup(l, i))
    && (forall g :: 0 <= g < |l.groups| ==> Seen(l, |l.ranks|, g) == l.local)
  }

  // ----- one participant -----

  lemma {:induction false} DirectNext(d: Demand, l: Placement, g: nat, source: Rank, s: nat)
    requires l.local >= 1 && g < |l.groups| && s < |l.groups[g]|
    ensures var target := l.groups[g][s];
      Direct(d, l, g, source, s + 1) ==
      if source == target then Direct(d, l, g, source, s)
      else Direct(d, l, g, source, s)
           + [Transmission(source, target, PerNeighbour(d, l), NodeAt(l, g), NodeAt(l, g), None)]
  {
    hide PerNeighbour;
    assert Member(l.groups, g, s) == l.groups[g][s];
  }

  method DirectMessages(d: Demand, l: Placement, g: nat, source: Rank) returns (messages: Round)
    requires l.local >= 1 && g < |l.groups| && |l.groups[g]| == l.local
    ensures messages == Direct(d, l, g, source, l.local)
  {
    messages := [];
    for s := 0 to l.local
      invariant messages == Direct(d, l, g, source, s)
    {
      var target := l.groups[g][s];
      DirectNext(d, l, g, source, s);
      if source != target {
        messages := messages + [Transmission(source, target, PerNeighbour(d, l), NodeAt(l, g), NodeAt(l, g), None)];
      }
    }
  }

  /** From one source to one remote node: to the relays, across, and on from the receiver. */
  method TowardsNode(d: Demand, l: Placement, g: nat, h: nat, source: Rank, each: real) returns (relayed: Round, across: Round, onwards: Round)
    requires |l.groups| >= 2 && l.local >= 1 && d.imbalance >= 1.0 && g < |l.groups| && h < |l.groups|
    requires |l.groups[g]| == l.local && |l.groups[h]| == l.local && each == PerTarget(d, l, g, h)
    ensures relayed == Relays(d, l, g, h, source, l.local) && across == Crossing(d, l, g, h, l.local)
    ensures onwards == if d.redistribute then Spreading(d, l, g, h, l.local) else []
  {
    hide PerTarget;
    relayed, across, onwards := [], [], [];
    for slot := 0 to l.local
      invariant relayed == Relays(d, l, g, h, source, slot) && across == Crossing(d, l, g, h, slot)
      invariant onwards == if d.redistribute then Spreading(d, l, g, h, slot) else []
    {
      var target, relay := l.groups[h][slot], l.groups[g][slot];
      if relay != source { relayed := relayed + [Transmission(source, relay, each, NodeAt(l, g), NodeAt(l, g), None)]; }
      var receiver := if d.redistribute then l.groups[h][0] else target;
      across := across + [Transmission(relay, receiver, each, NodeAt(l, g), NodeAt(l, h), None)];
      if receiver != target { onwards := onwards + [Transmission(receiver, target, each, NodeAt(l, h), NodeAt(l, h), None)]; }
    }
  }

  type Remote = map<(nat, nat), Round>

  function Sent(remote: Remote, g: nat, h: nat): Round {
    if (g, h) in remote then remote[(g, h)] else []
  }

  ghost predicate LocalsAt(d: Demand, l: Placement, locals: seq<Round>, n: nat, g: nat)
    requires l.local >= 1 && d.imbalance >= 1.0 && n <= |l.ranks| && g < |locals|
  {
    locals[g] == LocalMessages(d, l, g, Seen(l, n, g))
  }

  ghost predicate RemoteAt(d: Demand, l: Placement, remote: Remote, n: nat, g: nat, h: nat)
    requires |l.groups| >= 2 && l.local >= 1 && d.imbalance >= 1.0 && n <= |l.ranks|
  {
    Sent(remote, g, h) == InterMessages(d, l, g, h, Seen(l, n, g))
  }

  ghost predicate TargetsAt(d: Demand, l: Placement, targets: seq<Round>, n: nat, h: nat)
    requires |l.groups| >= 2 && l.local >= 1 && d.imbalance >= 1.0 && n <= |l.ranks| && h < |targets|
  {
    targets[h] == if d.redistribute then TargetMessages(d, l, h, n) else []
  }

  /** The lists after the first `n` participants. */
  ghost predicate Filled(d: Demand, l: Placement, locals: seq<Round>, remote: Remote, targets: seq<Round>, n: nat)
    requires l.local >= 1 && d.imbalance >= 1.0 && n <= |l.ranks|
  {
    && |locals| == |l.groups| && |targets| == |l.groups|
    && (forall g :: 0 <= g < |l.groups| ==> LocalsAt(d, l, locals, n, g))
    && (|l.groups| >= 2 ==>
          && (forall g, h :: 0 <= g < |l.groups| && 0 <= h < |l.groups| && g != h ==> RemoteAt(d, l, remote, n, g, h))
          && (forall h :: 0 <= h < |l.groups| ==> TargetsAt(d, l, targets, n, h)))
    && (|l.groups| < 2 ==> forall h :: 0 <= h < |l.groups| ==> targets[h] == [])
  }

  ghost predicate RemoteMid(d: Demand, l: Placement, remote: Remote, n: nat, g: nat, h: nat, b: nat)
    requires |l.groups| >= 2 && l.local >= 1 && d.imbalance >= 1.0 && n < |l.ranks|
  {
    if b < h then RemoteAt(d, l, remote, n + 1, g, b) else RemoteAt(d, l, remote, n, g, b)
  }

  ghost predicate TargetMid(d: Demand, l: Placement, targets: seq<Round>, n: nat, h: nat, b: nat)
    requires |l.groups| >= 2 && l.local >= 1 && d.imbalance >= 1.0 && n < |l.ranks| && b < |targets|
  {
    if b < h then TargetsAt(d, l, targets, n + 1, b) else TargetsAt(d, l, targets, n, b)
  }

  /** Participant `n` of group `g`, with remote nodes below `h` done. */
  ghost predicate Midway(d: Demand, l: Placement, remote: Remote, targets: seq<Round>, n: nat, g: nat, h: nat)
    requires |l.groups| >= 2 && l.local >= 1 && d.imbalance >= 1.0 && n < |l.ranks|
  {
    && |targets| == |l.groups|
    && (forall b :: 0 <= b < |l.groups| && b != g ==> RemoteMid(d, l, remote, n, g, h, b))
    && (forall a, b :: 0 <= a < |l.groups| && 0 <= b < |l.groups| && a != b && a != g ==> RemoteAt(d, l, remote, n, a, b))
    && (forall b :: 0 <= b < |l.groups| ==> TargetMid(d, l, targets, n, h, b))
  }

  lemma {:induction false} MidwayNext(d: Demand, l: Placement, remote: Remote, targets: seq<Round>, n: nat, g: nat, h: nat, across: Round, onwards: Round,
                                      more: Remote, beyond: seq<Round>, next: nat)
    requires next == h + 1 && |l.groups| >= 2 && l.local >= 1 && d.imbalance >= 1.0 && n < |l.ranks| && g == HomeOf(l, n) && g < |l.groups| && h < |l.groups|
    requires Midway(d, l, remote, targets, n, g, h)
    requires h != g ==> across == Crossing(d, l, g, h, l.local) && onwards == if d.redistribute then Spreading(d, l, g, h, l.local) else []
    requires more == if h == g then remote else remote[(g, h) := Sent(remote, g, h) + across]
    requires beyond == if h == g then targets else targets[h := targets[h] + onwards]
    ensures Midway(d, l, more, beyond, n, g, next)
  {
    hide Crossing, Spreading, HomeOf;
    forall b | 0 <= b < |l.groups| && b != g ensures RemoteMid(d, l, more, n, g, next, b) {
      assert RemoteMid(d, l, remote, n, g, h, b);
    }
    forall a, b | 0 <= a < |l.groups| && 0 <= b < |l.groups| && a != b && a != g ensures RemoteAt(d, l, more, n, a, b) {
      assert RemoteAt(d, l, remote, n, a, b);
    }
    forall b | 0 <= b < |l.groups| ensures TargetMid(d, l, beyond, n, next, b) {
      assert TargetMid(d, l, targets, n, h, b);
      if b == h { TargetNext(d, l, n, g, h); }
    }
  }

  lemma {:induction false} TargetNext(d: Demand, l: Placement, n: nat, g: nat, h: nat)
    requires |l.groups| >= 2 && l.local >= 1 && d.imbalance >= 1.0 && n < |l.ranks| && g == HomeOf(l, n)
    ensures TargetMessages(d, l, h, n + 1) == TargetMessages(d, l, h, n) + (if g == h then [] else Spreading(d, l, g, h, l.local))
  {
    hide Spreading;
  }

  /** Everything one participant sends to other nodes. */
  method RemoteMessages(d: Demand, l: Placement, i: nat, g: nat, remote: Remote, targets: seq<Round>)
    returns (relayed: Round, more: Remote, beyond: seq<Round>)
    requires ValidPlacement(l) && |l.groups| >= 2 && d.imbalance >= 1.0 && i < |l.ranks| && g == HomeOf(l, i) && g < |l.groups|
    requires Midway(d, l, remote, targets, i, g, 0)
    ensures relayed == AllRelays(d, l, g, l.ranks[i], |l.groups|) && Midway(d, l, more, beyond, i, g, |l.groups|)
  {
    hide Midway, Relays, Crossing, Spreading, HomeOf, PerTarget;
    relayed, more, beyond := [], remote, targets;
    for h := 0 to |l.groups|
      invariant relayed == AllRelays(d, l, g, l.ranks[i], h) && Midway(d, l, more, beyond, i, g, h)
    {
      MidwaySize(d, l, more, beyond, i, g, h);
      if h != g {
        var a, b, c := TowardsNode(d, l, g, h, l.ranks[i], PerTarget(d, l, g, h));
        MidwayNext(d, l, more, beyond, i, g, h, b, c, more[(g, h) := Sent(more, g, h) + b], beyond[h := beyond[h] + c], h + 1);
        relayed, more, beyond := relayed + a, more[(g, h) := Sent(more, g, h) + b], beyond[h := beyond[h] + c];
      } else {
        MidwayNext(d, l, more, beyond, i, g, h, [], [], more, beyond, h + 1);
      }
    }
  }

  lemma {:induction false} MidwaySize(d: Demand, l: Placement, remote: Remote, targets: seq<Round>, n: nat, g: nat, h: nat)
    requires |l.groups| >= 2 && l.local >= 1 && d.imbalance >= 1.0 && n < |l.ranks| && Midway(d, l, remote, targets, n, g, h)
    ensures |targets| == |l.groups|
  {
  }

  // ----- all participants -----

  lemma {:induction false} FilledStarts(d: Demand, l: Placement, locals: seq<Round>, targets: seq<Round>)
    requires l.local >= 1 && d.imbalance >= 1.0 && |locals| == |l.groups| == |targets|
    requires forall g :: 0 <= g < |l.groups| ==> locals[g] == [] && targets[g] == []
    ensures Filled(d, l, locals, map[], targets, 0)
  {
  }

  lemma {:induction false} FilledToMidway(d: Demand, l: Placement, locals: seq<Round>, remote: Remote, targets: seq<Round>, n: nat, g: nat)
    requires |l.groups| >= 2 && l.local >= 1 && d.imbalance >= 1.0 && n < |l.ranks| && Filled(d, l, locals, remote, targets, n) && g < |l.groups|
    ensures Midway(d, l, remote, targets, n, g, 0)
  {
    hide LocalsAt, RemoteAt, TargetsAt;
    forall b | 0 <= b < |l.groups| ensures (b != g ==> RemoteMid(d, l, remote, n, g, 0, b)) && TargetMid(d, l, targets, n, 0, b) {
      assert TargetsAt(d, l, targets, n, b);
    }
  }

  lemma {:induction false} LocalsNext(d: Demand, l: Placement, locals: seq<Round>, n: nat, g: nat, mine: Round, after: seq<Round>, a: nat)
    requires l.local >= 1 && d.imbalance >= 1.0 && n < |l.ranks| && |locals| == |l.groups| && a < |l.groups|
    requires NextInGroup(l, n) && g == HomeOf(l, n) && LocalsAt(d, l, locals, n, a)
    requires mine == Direct(d, l, g, l.ranks[n], l.local) + AllRelays(d, l, g, l.ranks[n], |l.groups|)
    requires after == locals[g := locals[g] + mine]
    ensures LocalsAt(d, l, after, n + 1, a)
  {
    hide Direct, AllRelays, HomeOf;
    if a == g {
      var before, direct, relayed := LocalMessages(d, l, g, Seen(l, n, g)), Direct(d, l, g, l.ranks[n], l.local), AllRelays(d, l, g, l.ranks[n], |l.groups|);
      assert before + (direct + relayed) == before + direct + relayed;
    }
  }

  lemma {:induction false} MidwayToFilled(d: Demand, l: Placement, remote: Remote, targets: seq<Round>, n: nat, g: nat, a: nat, b: nat)
    requires |l.groups| >= 2 && l.local >= 1 && d.imbalance >= 1.0 && n < |l.ranks| && g == HomeOf(l, n) && g < |l.groups|
    requires Midway(d, l, remote, targets, n, g, |l.groups|) && a < |l.groups| && b < |l.groups|
    ensures a != b ==> RemoteAt(d, l, remote, n + 1, a, b)
    ensures TargetsAt(d, l, targets, n + 1, b)
  {
    hide InterMessages, TargetMessages, HomeOf;
    assert TargetMid(d, l, targets, n, |l.groups|, b);
    if a != b {
      if a == g { assert RemoteMid(d, l, remote, n, g, |l.groups|, b); } else { assert RemoteAt(d, l, remote, n, a, b); }
    }
  }

  lemma {:induction false} FilledNext(d: Demand, l: Placement, locals: seq<Round>, remote: Remote, targets: seq<Round>, n: nat, g: nat, mine: Round,
                                      after: seq<Round>, more: Remote, beyond: seq<Round>, m: nat)
    requires m == n + 1 && ValidPlacement(l) && d.imbalance >= 1.0 && n < |l.ranks| && NextInGroup(l, n) && g == HomeOf(l, n)
    requires Filled(d, l, locals, remote, targets, n) && |beyond| == |l.groups|
    requires mine == Direct(d, l, g, l.ranks[n], l.local) + AllRelays(d, l, g, l.ranks[n], |l.groups|)
    requires after == locals[g := locals[g] + mine]
    requires if |l.groups| >= 2 then Midway(d, l, more, beyond, n, g, |l.groups|) else beyond == targets
    ensures Filled(d, l, after, more, beyond, m)
  {
    hide LocalsAt, RemoteAt, TargetsAt, Midway, HomeOf, Direct, AllRelays;
    forall a | 0 <= a < |l.groups| ensures LocalsAt(d, l, after, m, a) { LocalsNext(d, l, locals, n, g, mine, after, a); }
    if |l.groups| >= 2 {
      forall a, b | 0 <= a < |l.groups| && 0 <= b < |l.groups| && a != b ensures RemoteAt(d, l, more, m, a, b) {
        MidwayToFilled(d, l, more, beyond, n, g, a, b);
      }
      forall b | 0 <= b < |l.groups| ensures TargetsAt(d, l, beyond, m, b) { MidwayToFilled(d, l, more, beyond, n, g, b, b); }
    }
  }

  method FillLists(d: Demand, l: Placement) returns (locals: seq<Round>, remote: Remote, targets: seq<Round>)
    requires ValidPlacement(l) && Listed(l) && d.imbalance >= 1.0
    ensures Filled(d, l, locals, remote, targets, |l.ranks|)
  {
    hide Filled, Midway, Direct, AllRelays, HomeOf, NextInGroup;
    locals, targets, remote := seq(|l.groups|, _ => []), seq(|l.groups|, _ => []), map[];
    FilledStarts(d, l, locals, targets);
    for i := 0 to |l.ranks|
      invariant Filled(d, l, locals, remote, targets, i)
    {
      var g := HomeIndex(l, l.ranks[i], |l.groups|);
      HomeThere(l, i);
      FilledSize(d, l, locals, remote, targets, i);
      var mine := DirectMessages(d, l, g, l.ranks[i]);
      var relayed, more, beyond := [], remote, targets;
      if |l.groups| >= 2 {
        FilledToMidway(d, l, locals, remote, targets, i, g);
        relayed, more, beyond := RemoteMessages(d, l, i, g, remote, targets);
        MidwaySize(d, l, more, beyond, i, g, |l.groups|);
      } else {
        NoRelays(d, l, g, l.ranks[i]);
      }
      FilledNext(d, l, locals, remote, targets, i, g, mine + relayed, locals[g := locals[g] + (mine + relayed)], more, beyond, i + 1);
      locals, remote, targets := locals[g := locals[g] + (mine + relayed)], more, beyond;
    }
  }

  lemma {:induction false} HomeThere(l: Placement, i: nat)
    requires Listed(l) && i < |l.ranks|
    ensures NextInGroup(l, i) && HomeOf(l, i) < |l.groups| && HomeOf(l, i) == HomeIndex(l, l.ranks[i], |l.groups|)
  {
    assert NextInGroup(l, i);
  }

  lemma {:induction false} FilledSize(d: Demand, l: Placement, locals: seq<Round>, remote: Remote, targets: seq<Round>, n: nat)
    requires l.local >= 1 && d.imbalance >= 1.0 && n <= |l.ranks| && Filled(d, l, locals, remote, targets, n)
    ensures |locals| == |l.groups| == |targets|
  {
  }

  lemma {:induction false} NoRelays(d: Demand, l: Placement, g: nat, source: Rank)
    requires |l.groups| < 2 && l.local >= 1 && d.imbalance >= 1.0
    ensures AllRelays(d, l, g, source, |l.groups|) == []
  {
  }

  lemma {:induction false} FilledMeans(d: Demand, l: Placement, locals: seq<Round>, remote: Remote, targets: seq<Round>)
    requires ValidPlacement(l) && Listed(l) && d.imbalance >= 1.0 && Filled(d, l, locals, remote, targets, |l.ranks|)
    ensures |locals| == |l.groups| == |targets|
    ensures forall g :: 0 <= g < |l.groups| ==> locals[g] == LocalMessages(d, l, g, l.local)
    ensures |l.groups| >= 2 ==>
      forall g, h :: 0 <= g < |l.groups| && 0 <= h < |l.groups| && g != h ==> Sent(remote, g, h) == InterMessages(d, l, g, h, l.local)
    ensures d.redistribute ==>
      forall h :: 0 <= h < |l.groups| ==> targets[h] == if |l.groups| >= 2 then TargetMessages(d, l, h, |l.ranks|) else []
  {
    hide LocalMessages, InterMessages, TargetMessages, Seen, NextInGroup;
    forall g | 0 <= g < |l.groups| ensures locals[g] == LocalMessages(d, l, g, l.local) { assert LocalsAt(d, l, locals, |l.ranks|, g); }
    if |l.groups| >= 2 {
      forall g, h | 0 <= g < |l.groups| && 0 <= h < |l.groups| && g != h ensures Sent(remote, g, h) == InterMessages(d, l, g, h, l.local) {
        assert RemoteAt(d, l, remote, |l.ranks|, g, h);
      }
      forall h | 0 <= h < |l.groups| ensures d.redistribute ==> targets[h] == TargetMessages(d, l, h, |l.ranks|) {
        assert TargetsAt(d, l, targets, |l.ranks|, h);
      }
    }
  }

  // ----- groups list their members in participant order -----

  lemma {:induction false} OnNodePrefix(ranks: seq<Rank>, nodeOf: map<Rank, Node>, node: Node, i: nat, n: nat)
    requires i <= n <= |ranks|
    ensures OnNode(ranks, nodeOf, node, i) <= OnNode(ranks, nodeOf, node, n)
    decreases n
  {
    if i < n { OnNodePrefix(ranks, nodeOf, node, i, n - 1); }
  }

  /** The group of a participant is the one of its node. */
  lemma {:induction false} HomeIsNode(ranks: seq<Rank>, nodeOf: map<Rank, Node>, l: Placement, i: nat, g: nat)
    requires Participants(ranks, nodeOf) && Balanced(Groups(ranks, nodeOf)) && l == PlacementOf(ranks, nodeOf) && i < |ranks| && g < |l.groups|
    ensures ranks[i] in l.groups[g] <==> Home(nodeOf, ranks[i]) == l.nodes[g]
  {
    hide Home;
    GroupAt(ranks, nodeOf, l.nodes, g);
    OnNodeCount(ranks, nodeOf, l.nodes[g], |ranks|, ranks[i]);
    assert ranks[..|ranks|] == ranks;
    assert ranks[i] in multiset(ranks);
    assert ranks[i] in l.groups[g] <==> ranks[i] in multiset(l.groups[g]);
  }

  lemma {:induction false} HomeFound(ranks: seq<Rank>, nodeOf: map<Rank, Node>, l: Placement, i: nat, n: nat)
    requires Participants(ranks, nodeOf) && Balanced(Groups(ranks, nodeOf)) && l == PlacementOf(ranks, nodeOf) && i < |ranks| && n <= |l.groups|
    requires exists g :: 0 <= g < n && l.nodes[g] == Home(nodeOf, ranks[i])
    ensures HomeIndex(l, ranks[i], n) < n && l.nodes[HomeIndex(l, ranks[i], n)] == Home(nodeOf, ranks[i])
    decreases n
  {
    hide Home, PlacementOf;
    HomeIsNode(ranks, nodeOf, l, i, n - 1);
    if ranks[i] !in l.groups[n - 1] { HomeFound(ranks, nodeOf, l, i, n - 1); }
  }

  lemma {:induction false} HomeNode(ranks: seq<Rank>, nodeOf: map<Rank, Node>, l: Placement, i: nat)
    requires Participants(ranks, nodeOf) && Balanced(Groups(ranks, nodeOf)) && l == PlacementOf(ranks, nodeOf) && i < |ranks|
    ensures HomeOf(l, i) < |l.groups| && l.nodes[HomeOf(l, i)] == Home(nodeOf, ranks[i])
  {
    hide Home;
    NodeOrderCovers(ranks, nodeOf, |ranks|, i);
    HomeFound(ranks, nodeOf, l, i, |l.groups|);
  }

  lemma {:induction false} SeenIsOnNode(ranks: seq<Rank>, nodeOf: map<Rank, Node>, l: Placement, n: nat, g: nat)
    requires Participants(ranks, nodeOf) && Balanced(Groups(ranks, nodeOf)) && l == PlacementOf(ranks, nodeOf) && n <= |ranks| && g < |l.groups|
    ensures Seen(l, n, g) == |OnNode(ranks, nodeOf, l.nodes[g], n)|
    decreases n
  {
    hide Home, HomeOf;
    if n > 0 {
      SeenIsOnNode(ranks, nodeOf, l, n - 1, g);
      HomeNode(ranks, nodeOf, l, n - 1);
      NodeOrderAscending(ranks, nodeOf, |ranks|);
      SameNode(l.nodes, HomeOf(l, n - 1), g);
    }
  }

  lemma {:induction false} SameNode(nodes: seq<Node>, a: nat, b: nat)
    requires Ascending(nodes) && a < |nodes| && b < |nodes|
    ensures nodes[a] == nodes[b] <==> a == b
  {
  }

  lemma {:induction false} PlacementListed(ranks: seq<Rank>, nodeOf: map<Rank, Node>)
    requires Participants(ranks, nodeOf) && Balanced(Groups(ranks, nodeOf))
    ensures Listed(PlacementOf(ranks, nodeOf))
  {
    hide Home, HomeOf, Seen, OnNode;
    var l := PlacementOf(ranks, nodeOf);
    GridOfGroups(ranks, nodeOf);
    forall i | 0 <= i < |ranks| ensures NextInGroup(l, i) { NextListed(ranks, nodeOf, l, i); }
    forall g | 0 <= g < |l.groups| ensures Seen(l, |ranks|, g) == l.local {
      SeenIsOnNode(ranks, nodeOf, l, |ranks|, g);
      GroupAt(ranks, nodeOf, l.nodes, g);
    }
  }

  lemma {:induction false} NextListed(ranks: seq<Rank>, nodeOf: map<Rank, Node>, l: Placement, i: nat)
    requires Participants(ranks, nodeOf) && Balanced(Groups(ranks, nodeOf)) && l == PlacementOf(ranks, nodeOf) && i < |ranks|
    requires Rectangular(l.groups, l.local)
    ensures NextInGroup(l, i)
  {
    hide Home, HomeOf, Seen;
    var g := HomeOf(l, i);
    HomeNode(ranks, nodeOf, l, i);
    SeenIsOnNode(ranks, nodeOf, l, i, g);
    GroupAt(ranks, nodeOf, l.nodes, g);
    OnNodePrefix(ranks, nodeOf, l.nodes[g], i + 1, |ranks|);
  }

  // ----- the phases -----

  method AssembleSources(d: Demand, l: Placement, locals: seq<Round>) returns (phases: seq<TrafficPhase>)
    requires l.local >= 1 && d.imbalance >= 1.0 && |locals| == |l.groups|
    requires forall g :: 0 <= g < |l.groups| ==> locals[g] == LocalMessages(d, l, g, l.local)
    ensures phases == SourcePhases(d, l, |l.groups|)
  {
    hide LocalMessages;
    phases := [];
    for g := 0 to |l.groups|
      invariant phases == SourcePhases(d, l, g)
    {
      phases := phases + [TrafficPhase(SourceLocal(NodeAt(l, g)), AllToAll, l.groups[g], d.size, [locals[g]], [], [])];
    }
  }

  /** By source node, then target node. */
  method AssembleInter(d: Demand, l: Placement, remote: Remote) returns (phases: seq<TrafficPhase>)
    requires |l.groups| >= 2 && l.local >= 1 && d.imbalance >= 1.0
    requires forall g, h :: 0 <= g < |l.groups| && 0 <= h < |l.groups| && g != h ==> Sent(remote, g, h) == InterMessages(d, l, g, h, l.local)
    ensures phases == InterPhases(d, l, |l.groups|)
  {
    hide InterMessages;
    phases := [];
    for g := 0 to |l.groups|
      invariant phases == InterPhases(d, l, g)
    {
      var row: seq<TrafficPhase> := [];
      for h := 0 to |l.groups|
        invariant row == InterFrom(d, l, g, h)
      {
        if h != g {
          row := row + [TrafficPhase(Inter(NodeAt(l, g), NodeAt(l, h)), AllToAll, l.groups[g] + l.groups[h], d.size,
                                     [Sent(remote, g, h)], [SourceLocal(NodeAt(l, g))], [])];
        }
      }
      phases := phases + row;
    }
  }

  method AssembleSpread(d: Demand, l: Placement, targets: seq<Round>) returns (phases: seq<TrafficPhase>)
    requires l.local >= 1 && d.imbalance >= 1.0 && |targets| == |l.groups|
    requires forall h :: 0 <= h < |l.groups| ==> targets[h] == if |l.groups| >= 2 then TargetMessages(d, l, h, |l.ranks|) else []
    ensures phases == SpreadPhases(d, l, |l.groups|)
  {
    hide TargetMessages;
    phases := [];
    for h := 0 to |l.groups|
      invariant phases == SpreadPhases(d, l, h)
    {
      phases := phases + [TrafficPhase(DestinationLocal(NodeAt(l, h)), AllToAll, l.groups[h], d.size, [targets[h]],
                                       InterIds(l, h, |l.groups|), [])];
    }
  }

  /** The message lists of the loops are those of the plan. */
  method BuildPhases(d: Demand, l: Placement) returns (phases: seq<TrafficPhase>)
    requires ValidPlacement(l) && Listed(l) && d.imbalance >= 1.0
    ensures phases == AllToAllPhases(d, l)
  {
    hide SourcePhases, InterPhases, SpreadPhases, LocalMessages, InterMessages, TargetMessages;
    var locals, remote, targets := FillLists(d, l);
    FilledMeans(d, l, locals, remote, targets);
    phases := AssembleSources(d, l, locals);
    if |l.groups| >= 2 {
      var inter := AssembleInter(d, l, remote);
      phases := phases + inter;
    }
    if d.redistribute {
      var spread := AssembleSpread(d, l, targets);
      phases := phases + spread;
    }
  }

  /** `all_to_all_plan`: refuses exactly what is not acceptable; otherwise the demand is well formed and so is the plan. */
  method BuildAllToAll(ranks: seq<Rank>, bytes: int, nodeOf: map<Rank, Node>, near: Option<real>, far: Option<real>,
                       imbalance: real, redistribute: bool, width: nat)
    returns (result: Result<TrafficPlan>)
    requires width > 0
    ensures result.Ok? <==> AcceptsAllToAll(ranks, bytes, nodeOf, near, far, imbalance, width)
    ensures result.Err? ==> result.error == ConfigurationError
    ensures result.Ok? ==>
      var l := PlacementOf(ranks, nodeOf);
      var d := Demand(bytes, LocalShare(near, far, l), imbalance, redistribute);
      && ValidPlacement(l) && ValidDemand(d, |l.groups|)
      && result.value == TrafficPlan(AllToAll, ranks, bytes, AllToAllPhases(d, l))
  {
    hide AllToAllPhases, Listed, Groups;
    if !WholeElements(bytes, width) || !Participants(ranks, nodeOf) || !ValidFractions(near, far) || imbalance < 1.0 {
      return Err(ConfigurationError);
    }
    if !Balanced(Groups(ranks, nodeOf)) {
      return Err(ConfigurationError);
    }
    var l := PlacementOf(ranks, nodeOf);
    PlacementValid(ranks, nodeOf);
    UniformShare(l);
    var fraction := LocalShare(near, far, l);
    if |l.groups| == 1 && fraction != 1.0 {
      return Err(ConfigurationError);
    }
    PlacementListed(ranks, nodeOf);
    var phases := BuildPhases(Demand(bytes, fraction, imbalance, redistribute), l);
    result := Ok(TrafficPlan(AllToAll, ranks, bytes, phases));
  }
}
