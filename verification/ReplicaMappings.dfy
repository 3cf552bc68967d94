/** Which block of each rank stands for a logical block, and the checks of `validate_invariants`. */
module ReplicaMappings {
  import opened Common
  import opened KvPool
  import opened KvCache
  import opened KvManager
  import opened FreeQueues
  import opened BlockManagers
  import opened ReplicaRanks

  /** The shards of one logical block, in rank order. */
  datatype Mapping = Mapping(device: Device, shards: seq<Ref>)

  type Mappings = map<(RequestId, nat), Mapping>

  // ----- rows and columns -----

  /** What each of the first `n` ranks holds for a request. */
  function Rows(states: seq<Manager>, id: RequestId, n: nat): (rows: seq<seq<Ref>>)
    requires n <= |states|
    ensures |rows| == n && forall k :: 0 <= k < n ==> rows[k] == Table(states[k], id)
  {
    if n == 0 then [] else Rows(states, id, n - 1) + [Table(states[n - 1], id)]
  }

  predicate Square(rows: seq<seq<Ref>>, size: nat) {
    forall k :: 0 <= k < |rows| ==> |rows[k]| == size
  }

  function Column(rows: seq<seq<Ref>>, i: nat, n: nat): (shards: seq<Ref>)
    requires n <= |rows| && forall k :: 0 <= k < n ==> i < |rows[k]|
    ensures |shards| == n && forall k :: 0 <= k < n ==> shards[k] == rows[k][i]
  {
    if n == 0 then [] else Column(rows, i, n - 1) + [rows[n - 1][i]]
  }

  predicate OneDevice(rows: seq<seq<Ref>>, i: nat)
    requires rows != [] && Square(rows, |rows[0]|) && i < |rows[0]|
  {
    forall k :: 0 <= k < |rows| ==> rows[k][i].device == rows[0][i].device
  }

  /** Forgets request `id`, then maps its first `n` logical blocks. */
  function Built(mappings: Mappings, rows: seq<seq<Ref>>, id: RequestId, n: nat): Mappings
    requires rows != [] && Square(rows, |rows[0]|) && n <= |rows[0]|
  {
    if n == 0 then Forgotten(mappings, id)
    else Built(mappings, rows, id, n - 1)[(id, n - 1) := Mapping(rows[0][n - 1].device, Column(rows, n - 1, |rows|))]
  }

  function Forgotten(mappings: Mappings, id: RequestId): Mappings {
    map key | key in mappings && key.0 != id :: mappings[key]
  }

  lemma {:induction false} BuiltAt(mappings: Mappings, rows: seq<seq<Ref>>, id: RequestId, n: nat, key: (RequestId, nat))
    requires rows != [] && Square(rows, |rows[0]|) && n <= |rows[0]|
    ensures var after := Built(mappings, rows, id, n);
      && (key in after <==> if key.0 == id then key.1 < n else key in mappings)
      && (key in after ==> after[key] == if key.0 == id then Mapping(rows[0][key.1].device, Column(rows, key.1, |rows|)) else mappings[key])
    decreases n
  {
    if n > 0 { BuiltAt(mappings, rows, id, n - 1, key); }
  }

  // ----- the mapping of equal ranks -----

  /** The same block on each of `n` ranks. */
  function Copies(r: Ref, n: nat): (shards: seq<Ref>)
    ensures |shards| == n && forall k :: 0 <= k < n ==> shards[k] == r
  {
    if n == 0 then [] else Copies(r, n - 1) + [r]
  }

  ghost predicate MappedAt(mappings: Mappings, n: nat, s: Manager, owners: set<RequestId>, key: (RequestId, nat)) {
    && (key in mappings <==> key.0 in owners && key.1 < |Table(s, key.0)|)
    && (key in mappings ==> mappings[key] == Mapping(Table(s, key.0)[key.1].device, Copies(Table(s, key.0)[key.1], n)))
  }

  /** Every logical block of every owner is mapped to the same block on all `n` ranks, and nothing else is mapped. */
  ghost predicate Mapped(mappings: Mappings, n: nat, s: Manager, owners: set<RequestId>) {
    && (forall key :: MappedAt(mappings, n, s, owners, key))
    && (forall id :: Table(s, id) != [] ==> id in owners)
  }

  lemma {:induction false} EqualRows(states: seq<Manager>, s: Manager, id: RequestId)
    requires states != [] && Same(states, s)
    ensures var rows := Rows(states, id, |states|);
      && Square(rows, |Table(s, id)|) && rows[0] == Table(s, id)
      && forall i :: 0 <= i < |Table(s, id)| ==> OneDevice(rows, i) && Column(rows, i, |rows|) == Copies(Table(s, id)[i], |states|)
  {
  }

  /** Rebuilding the mappings of the one request whose row changed maps everything again. */
  lemma {:induction false} RemappedAt(mappings: Mappings, after: Mappings, rows: seq<seq<Ref>>, n: nat, s: Manager, t: Manager,
                                      owners: set<RequestId>, id: RequestId, key: (RequestId, nat))
    requires MappedAt(mappings, n, s, owners, key) && rows != [] && |rows| == n && Square(rows, |rows[0]|) && rows[0] == Table(t, id)
    requires key.0 == id && key.1 < |rows[0]| ==> Column(rows, key.1, n) == Copies(Table(t, id)[key.1], n)
    requires key.0 != id ==> Table(t, key.0) == Table(s, key.0)
    requires after == Built(mappings, rows, id, |rows[0]|)
    ensures MappedAt(after, n, t, owners + {id}, key)
  {
    BuiltAt(mappings, rows, id, |rows[0]|, key);
  }

  lemma {:induction false} Remapped(mappings: Mappings, states: seq<Manager>, s: Manager, t: Manager, owners: set<RequestId>, id: RequestId)
    requires Mapped(mappings, |states|, s, owners) && states != [] && Same(states, t)
    requires forall other :: other != id ==> Table(t, other) == Table(s, other)
    ensures var rows := Rows(states, id, |states|);
      Square(rows, |rows[0]|) && Mapped(Built(mappings, rows, id, |rows[0]|), |states|, t, owners + {id})
  {
    hide MappedAt, Built, OneDevice;
    EqualRows(states, t, id);
    var rows := Rows(states, id, |states|);
    forall key ensures MappedAt(Built(mappings, rows, id, |rows[0]|), |states|, t, owners + {id}, key) {
      assert MappedAt(mappings, |states|, s, owners, key);
      RemappedAt(mappings, Built(mappings, rows, id, |rows[0]|), rows, |states|, s, t, owners, id, key);
    }
  }

  lemma {:induction false} Unmapped(mappings: Mappings, n: nat, s: Manager, t: Manager, owners: set<RequestId>, id: RequestId)
    requires Mapped(mappings, n, s, owners) && Table(t, id) == []
    requires forall other :: other != id ==> Table(t, other) == Table(s, other)
    ensures Mapped(Forgotten(mappings, id), n, t, owners - {id})
  {
    forall key ensures MappedAt(Forgotten(mappings, id), n, t, owners - {id}, key) { assert MappedAt(mappings, n, s, owners, key); }
  }

  lemma {:induction false} NothingMapped(n: nat, s: Manager)
    requires s.table == map[]
    ensures Mapped(map[], n, s, {})
  {
  }

  lemma {:induction false} StillMapped(mappings: Mappings, n: nat, s: Manager, t: Manager, owners: set<RequestId>)
    requires Mapped(mappings, n, s, owners) && forall id :: Table(t, id) == Table(s, id)
    ensures Mapped(mappings, n, t, owners)
  {
    forall key ensures MappedAt(mappings, n, t, owners, key) { assert MappedAt(mappings, n, s, owners, key); }
  }

  // ----- the checks -----

  ghost predicate SameRefs(states: seq<Manager>, rows: seq<seq<Ref>>, i: nat)
    requires |rows| == |states| && states != [] && forall k :: 0 <= k < |rows| ==> i < |rows[k]|
  {
    forall k :: 0 <= k < |states| ==> Refs(states[k].cache, rows[k][i]) == Refs(states[0].cache, rows[0][i])
  }

  ghost predicate BlockChecks(states: seq<Manager>, mappings: Mappings, rows: seq<seq<Ref>>, id: RequestId, i: nat)
    requires |rows| == |states| && states != [] && forall k :: 0 <= k < |rows| ==> i < |rows[k]|
  {
    (id, i) in mappings && mappings[(id, i)].shards == Column(rows, i, |rows|) && SameRefs(states, rows, i)
  }

  ghost predicate WithinPools(s: Manager) {
    s.cache.gpu.capacity - NumFree(s.cache.gpu) <= s.cache.gpu.capacity && s.cache.cpu.capacity - NumFree(s.cache.cpu) <= s.cache.cpu.capacity
  }

  /** What `validate_invariants` demands of request `id`. */
  ghost predicate Checks(states: seq<Manager>, mappings: Mappings, owners: set<RequestId>, id: RequestId)
    requires states != []
  {
    var rows := Rows(states, id, |states|);
    && id in owners && Square(rows, |rows[0]|)
    && (forall i :: 0 <= i < |rows[0]| ==> BlockChecks(states, mappings, rows, id, i))
    && (forall k :: 0 <= k < |states| ==> WithinPools(states[k]))
  }

  lemma {:induction false} PoolsHold(s: Manager)
    requires Inv(s)
    ensures WithinPools(s)
  {
    hide PoolOk;
    ConsistentPool(s.cache, Held(s), GPU);
    ConsistentPool(s.cache, Held(s), CPU);
    Conservation(s.cache.gpu);
    Conservation(s.cache.cpu);
  }

  /** The checks never fail on equal ranks with their mappings up to date. */
  lemma {:induction false} ChecksHold(states: seq<Manager>, s: Manager, mappings: Mappings, owners: set<RequestId>, id: RequestId)
    requires states != [] && Same(states, s) && Inv(s) && Mapped(mappings, |states|, s, owners) && id in owners
    ensures Checks(states, mappings, owners, id)
  {
    hide Inv, WithinPools;
    EqualRows(states, s, id);
    PoolsHold(s);
    forall i | 0 <= i < |Table(s, id)| ensures BlockChecks(states, mappings, Rows(states, id, |states|), id, i) {
      assert MappedAt(mappings, |states|, s, owners, (id, i));
    }
  }
}
