/** The block manager as a state machine: which request holds which blocks, and what every operation does. */
module KvManager {
  import opened Common
  import opened PrefixKeys
  import opened KvPool
  import opened KvCache

  type RequestId = nat

  /** What a request says about its content; `scope` stands for model, salt and reuse group. */
  datatype Prompt = Prompt(hashIds: seq<string>, outputIds: seq<string>, prefillLen: nat, decodeLen: nat, scope: Hash)

  /** A request as the block manager sees it. */
  datatype Req = Req(id: RequestId, prompt: Prompt, logicalBlocks: nat)

  datatype Manager = Manager(
    blockSize: nat,
    watermark: nat,
    cache: Cache,
    table: map<RequestId, seq<Ref>>,
    reserved: seq<Ref>,
    keys: map<RequestId, seq<Key>>,
    committed: set<RequestId>)

  datatype Step = Step(after: Manager, error: Option<Error>)

  function Table(m: Manager, id: RequestId): seq<Ref> {
    if id in m.table then m.table[id] else []
  }

  function InputKeys(m: Manager, id: RequestId): seq<Key> {
    if id in m.keys then m.keys[id] else []
  }

  // ----- holders -----

  /** All blocks in the table, counted once per request and place. */
  ghost function Holders(table: map<RequestId, seq<Ref>>): multiset<Ref>
    decreases |table|
  {
    if |table| == 0 then multiset{}
    else
      var id :| id in table;
      Holders(table - {id}) + multiset(table[id])
  }

  lemma {:induction false} HoldersFirst(table: map<RequestId, seq<Ref>>) returns (id: RequestId)
    requires |table| > 0
    ensures id in table && Holders(table) == Holders(table - {id}) + multiset(table[id])
  {
    id :| id in table && Holders(table) == Holders(table - {id}) + multiset(table[id]);
  }

  /** Each row can be split off first. */
  lemma {:induction false} HoldersSplit(table: map<RequestId, seq<Ref>>, id: RequestId)
    requires id in table
    ensures Holders(table) == Holders(table - {id}) + multiset(table[id])
    decreases |table|
  {
    hide Holders;
    assert |table| > 0;
    var first := HoldersFirst(table);
    if first != id {
      HoldersSplit(table - {first}, id);
      HoldersSplit(table - {id}, first);
      assert table - {first} - {id} == table - {id} - {first};
    }
  }

  lemma {:induction false} HoldersSet(table: map<RequestId, seq<Ref>>, id: RequestId, blocks: seq<Ref>)
    ensures Holders(table[id := blocks]) == Holders(table - {id}) + multiset(blocks)
    ensures Holders(table) == Holders(table - {id}) + multiset(if id in table then table[id] else [])
  {
    hide Holders;
    HoldersSplit(table[id := blocks], id);
    assert table[id := blocks] - {id} == table - {id};
    if id in table { HoldersSplit(table, id); } else { assert table - {id} == table; }
  }

  ghost function Held(m: Manager): multiset<Ref> {
    Holders(m.table) + multiset(m.reserved)
  }

  ghost predicate Inv(m: Manager) {
    Consistent(m.cache, Held(m))
  }

  // ----- several blocks at once -----

  datatype Taking = Taking(cache: Cache, refs: seq<Ref>, ok: bool)

  lemma {:induction false} TakeOne(t: Taking, held: multiset<Ref>, d: Device)
    requires Consistent(t.cache, held + multiset(t.refs)) && NumFree(PoolOf(t.cache, d)) > 0
    ensures var (e, r) := Allocate(t.cache, d); Consistent(e, held + multiset(t.refs + [r])) && !BlockAt(e, r).cached
  {
    hide Consistent, Allocate, NumFree;
    ConsistentPool(t.cache, held + multiset(t.refs), d);
    AllocateOk(t.cache, held + multiset(t.refs), d);
    var r := Allocate(t.cache, d).1;
    assert held + multiset(t.refs + [r]) == held + multiset(t.refs) + multiset{r};
  }

  /** Hands out up to `n` blocks one after the other; stops when none is free. */
  ghost function TakeMany(c: Cache, held: multiset<Ref>, d: Device, n: nat): (t: Taking)
    requires Consistent(c, held)
    ensures Consistent(t.cache, held + multiset(t.refs)) && |t.refs| <= n && (t.ok ==> |t.refs| == n)
  {
    if n == 0 then Taking(c, [], true)
    else
      var t := TakeMany(c, held, d, n - 1);
      if !t.ok || NumFree(PoolOf(t.cache, d)) <= 0 then t.(ok := false)
      else
        TakeOne(t, held, d);
        var (e, r) := Allocate(t.cache, d);
        Taking(e, t.refs + [r], true)
  }

  lemma {:induction false} TakeNone(c: Cache, held: multiset<Ref>, d: Device)
    requires Consistent(c, held)
    ensures TakeMany(c, held, d, 0) == Taking(c, [], true)
  {
  }

  lemma {:induction false} TakeUnfold(c: Cache, held: multiset<Ref>, d: Device, n: nat, t: Taking)
    requires Consistent(c, held) && t == TakeMany(c, held, d, n) && t.ok && PoolOk(PoolOf(t.cache, d))
    ensures TakeMany(c, held, d, n + 1) ==
      if NumFree(PoolOf(t.cache, d)) <= 0 then t.(ok := false)
      else Taking(Allocate(t.cache, d).0, t.refs + [Allocate(t.cache, d).1], true)
  {
    hide Consistent, PoolOk, Allocate;
  }

  /** Once nothing is free, asking for more changes nothing. */
  lemma {:induction false} TakeStuck(c: Cache, held: multiset<Ref>, d: Device, i: nat, n: nat)
    requires Consistent(c, held) && i <= n && !TakeMany(c, held, d, i).ok
    ensures TakeMany(c, held, d, n) == TakeMany(c, held, d, i)
    decreases n
  {
    hide Consistent, Allocate, PoolOk;
    if i < n { TakeStuck(c, held, d, i, n - 1); }
  }

  ghost predicate AllExist(c: Cache, refs: seq<Ref>) {
    forall k :: 0 <= k < |refs| ==> Exists(c, refs[k])
  }

  /** One more reference to each of `refs`, in order. */
  ghost function AcquireMany(c: Cache, held: multiset<Ref>, refs: seq<Ref>): (e: Cache)
    requires Consistent(c, held) && AllExist(c, refs)
    ensures Consistent(e, held + multiset(refs))
    decreases |refs|
  {
    if refs == [] then c
    else
      assert refs == [refs[0]] + refs[1..];
      assert multiset(refs) == multiset{refs[0]} + multiset(refs[1..]);
      AcquireOk(c, held, refs[0]);
      assert held + multiset{refs[0]} + multiset(refs[1..]) == held + multiset(refs);
      AcquireMany(Acquire(c, refs[0]), held + multiset{refs[0]}, refs[1..])
  }

  lemma {:induction false} ReleaseOne(c: Cache, held: multiset<Ref>, refs: seq<Ref>, first: Ref, rest: seq<Ref>)
    requires Consistent(c, held) && multiset(refs) <= held && refs == [first] + rest
    ensures Exists(c, first) && Refs(c, first) > 0 && Consistent(Release(c, first), held - multiset{first})
    ensures multiset(rest) <= held - multiset{first} && held - multiset{first} - multiset(rest) == held - multiset(refs)
  {
    hide Consistent, Release, OnlyRef, NumFree, Exists, Refs;
    assert multiset(refs) == multiset{first} + multiset(rest);
    ReleaseOk(c, held, first);
  }

  /** One reference less for each of `refs`, in order. */
  ghost function ReleaseMany(c: Cache, held: multiset<Ref>, refs: seq<Ref>): (e: Cache)
    requires Consistent(c, held) && multiset(refs) <= held
    ensures Consistent(e, held - multiset(refs))
    decreases |refs|
  {
    if refs == [] then c
    else
      ReleaseOne(c, held, refs, refs[0], refs[1..]);
      ReleaseMany(Release(c, refs[0]), held - multiset{refs[0]}, refs[1..])
  }

  function Reversed(refs: seq<Ref>): (r: seq<Ref>)
    ensures multiset(r) == multiset(refs)
  {
    if refs == [] then []
    else
      assert refs == [refs[0]] + refs[1..];
      Reversed(refs[1..]) + [refs[0]]
  }

  ghost predicate AllHeld(held: multiset<Ref>, refs: seq<Ref>) {
    forall k :: 0 <= k < |refs| ==> refs[k] in held
  }

  /** Publishes the blocks under the keys, pairwise, as far as both go. */
  ghost function RegisterMany(c: Cache, held: multiset<Ref>, refs: seq<Ref>, keys: seq<Key>): (e: Cache)
    requires Consistent(c, held) && AllHeld(held, refs)
    ensures Consistent(e, held)
    decreases |refs|
  {
    if refs == [] || keys == [] then c
    else
      RegisterOk(c, held, refs[0], keys[0]);
      RegisterMany(Register(c, refs[0], keys[0]), held, refs[1..], keys[1..])
  }

  ghost predicate AllPrivate(c: Cache, refs: seq<Ref>) {
    forall k :: 0 <= k < |refs| ==> !BlockAt(c, refs[k]).cached
  }

  lemma {:induction false} PrivateAfter(c: Cache, e: Cache, refs: seq<Ref>)
    requires refs != [] && AllPrivate(c, refs) && OnlyRef(c, e, refs[0]) && !BlockAt(e, refs[0]).cached
    ensures AllPrivate(e, refs[1..])
  {
    var rest := refs[1..];
    forall k | 0 <= k < |rest| ensures !BlockAt(e, rest[k]).cached {
      assert rest[k] == refs[k + 1];
      if rest[k] != refs[0] { assert BlockAt(e, rest[k]) == BlockAt(c, rest[k]); }
    }
  }

  /** Labels fresh blocks with the keys they will be published under. */
  ghost function MarkMany(c: Cache, held: multiset<Ref>, refs: seq<Ref>, keys: seq<Key>): (e: Cache)
    requires Consistent(c, held) && AllHeld(held, refs) && AllPrivate(c, refs)
    ensures Consistent(e, held)
    decreases |refs|
  {
    if refs == [] || keys == [] then c
    else
      MarkOk(c, held, refs[0], Some(keys[0]), true);
      var next := Mark(c, refs[0], Some(keys[0]), true);
      PrivateAfter(c, next, refs);
      MarkMany(next, held, refs[1..], keys[1..])
  }

  /** Hands out one target block per source block, with the same label. */
  ghost function CopyMany(c: Cache, held: multiset<Ref>, sources: seq<Ref>, d: Device, n: nat): (t: Taking)
    requires Consistent(c, held) && n <= |sources|
    ensures Consistent(t.cache, held + multiset(t.refs)) && |t.refs| <= n && (t.ok ==> |t.refs| == n)
  {
    if n == 0 then Taking(c, [], true)
    else
      var t := CopyMany(c, held, sources, d, n - 1);
      if !t.ok || NumFree(PoolOf(t.cache, d)) <= 0 then t.(ok := false)
      else
        TakeOne(t, held, d);
        var (e, r) := Allocate(t.cache, d);
        MarkOk(e, held + multiset(t.refs + [r]), r, BlockAt(e, sources[n - 1]).hash, BlockAt(e, sources[n - 1]).full);
        Taking(Mark(e, r, BlockAt(e, sources[n - 1]).hash, BlockAt(e, sources[n - 1]).full), t.refs + [r], true)
  }

  lemma {:induction false} CopyNone(c: Cache, held: multiset<Ref>, sources: seq<Ref>, d: Device)
    requires Consistent(c, held)
    ensures CopyMany(c, held, sources, d, 0) == Taking(c, [], true)
  {
  }

  lemma {:induction false} CopyUnfold(c: Cache, held: multiset<Ref>, sources: seq<Ref>, d: Device, n: nat, t: Taking)
    requires Consistent(c, held) && n < |sources| && t == CopyMany(c, held, sources, d, n) && t.ok
    requires PoolOk(PoolOf(t.cache, d)) && CopyMany(c, held, sources, d, n + 1).ok
    ensures NumFree(PoolOf(t.cache, d)) > 0
    ensures var (e, r) := Allocate(t.cache, d);
      Exists(e, r) && CopyMany(c, held, sources, d, n + 1) ==
                      Taking(Mark(e, r, BlockAt(e, sources[n]).hash, BlockAt(e, sources[n]).full), t.refs + [r], true)
  {
    hide Consistent, PoolOk, Allocate, OnlyRef;
    assert NumFree(PoolOf(t.cache, d)) > 0;
    AllocateFresh(t.cache, held + multiset(t.refs), d);
  }

  /** If all copies succeed, so do the first ones. */
  lemma {:induction false} CopySucceeds(c: Cache, held: multiset<Ref>, sources: seq<Ref>, d: Device, i: nat, n: nat)
    requires Consistent(c, held) && i <= n <= |sources| && CopyMany(c, held, sources, d, n).ok
    ensures CopyMany(c, held, sources, d, i).ok
    decreases n
  {
    hide Consistent, PoolOk, Allocate;
    if i < n { CopySucceeds(c, held, sources, d, i, n - 1); }
  }

  /** Enough free blocks for all copies. */
  lemma {:induction false} CopyFits(c: Cache, held: multiset<Ref>, sources: seq<Ref>, d: Device, n: nat)
    requires Consistent(c, held) && n <= |sources| && n <= NumFree(PoolOf(c, d))
    ensures CopyMany(c, held, sources, d, n).ok
    ensures NumFree(PoolOf(CopyMany(c, held, sources, d, n).cache, d)) == NumFree(PoolOf(c, d)) - n
    decreases n
  {
    hide Consistent, PoolOk, Allocate, OnlyRef;
    if n > 0 {
      CopyFits(c, held, sources, d, n - 1);
      var t := CopyMany(c, held, sources, d, n - 1);
      ConsistentPool(t.cache, held + multiset(t.refs), d);
      AllocateOk(t.cache, held + multiset(t.refs), d);
      MarkFree(Allocate(t.cache, d).0, Allocate(t.cache, d).1, BlockAt(Allocate(t.cache, d).0, sources[n - 1]), d);
    }
  }

  lemma {:induction false} MarkFree(c: Cache, r: Ref, block: Block, d: Device)
    requires Exists(c, r)
    ensures NumFree(PoolOf(Mark(c, r, block.hash, block.full), d)) == NumFree(PoolOf(c, d))
  {
  }

  // ----- prefix reuse -----

  function FullInputBlocks(blockSize: nat, prompt: Prompt): nat {
    if blockSize == 0 then 0 else Div(prompt.prefillLen, blockSize)
  }

  /** The signatures of the full input blocks. */
  function InputSignatures(blockSize: nat, prompt: Prompt): seq<string> {
    prompt.hashIds[..Min(FullInputBlocks(blockSize, prompt), |prompt.hashIds|)]
  }

  function RequestKeys(blockSize: nat, prompt: Prompt): seq<Key> {
    var signatures := InputSignatures(blockSize, prompt);
    PlainChain(signatures, prompt.scope, |signatures|)
  }

  predicate IsHit(c: Cache, key: Key) {
    key in c.index && c.index[key].device.GPU? && BlockAt(c, c.index[key]).cached && BlockAt(c, c.index[key]).full
  }

  /** The leading run of indexed GPU blocks among the first `n` keys. */
  function Hits(c: Cache, keys: seq<Key>, n: nat): (hits: seq<Ref>)
    requires n <= |keys|
    ensures |hits| <= n
  {
    if n == 0 then []
    else
      var earlier := Hits(c, keys, n - 1);
      if |earlier| == n - 1 && IsHit(c, keys[n - 1]) then earlier + [c.index[keys[n - 1]]] else earlier
  }

  /** Behind the first miss nothing counts. */
  lemma {:induction false} HitsStop(c: Cache, keys: seq<Key>, i: nat, n: nat)
    requires i <= n <= |keys| && |Hits(c, keys, i)| < i
    ensures Hits(c, keys, n) == Hits(c, keys, i)
    decreases n
  {
    if i < n { HitsStop(c, keys, i, n - 1); }
  }

  function PlanReuse(m: Manager, req: Req): seq<Ref> {
    var keys := RequestKeys(m.blockSize, req.prompt);
    Hits(m.cache, keys, |keys|)
  }

  /** How many of `refs` nobody references. */
  function ZeroRefs(c: Cache, refs: seq<Ref>): nat {
    if refs == [] then 0 else (if Refs(c, refs[0]) == 0 then 1 else 0) + ZeroRefs(c, refs[1..])
  }

  function Misses(m: Manager, req: Req): int {
    req.logicalBlocks - |PlanReuse(m, req)|
  }

  predicate CanAllocate(m: Manager, req: Req) {
    var hits := PlanReuse(m, req);
    NumFree(m.cache.gpu) - ZeroRefs(m.cache, hits) - Misses(m, req) >= m.watermark
  }

  lemma {:induction false} HitsExist(c: Cache, held: multiset<Ref>, keys: seq<Key>, n: nat)
    requires Consistent(c, held) && n <= |keys|
    ensures AllExist(c, Hits(c, keys, n))
    decreases n
  {
    if n > 0 {
      HitsExist(c, held, keys, n - 1);
      assert Sound(c, keys[n - 1]);
    }
  }

  // ----- admission -----

  lemma {:induction false} HitsReady(m: Manager, req: Req)
    requires Inv(m)
    ensures AllExist(m.cache, PlanReuse(m, req))
    ensures AcquiredHits(m, req) == AcquireMany(m.cache, Held(m), PlanReuse(m, req))
  {
    HitsExist(m.cache, Held(m), RequestKeys(m.blockSize, req.prompt), |RequestKeys(m.blockSize, req.prompt)|);
  }

  /** The hits with one more reference each. */
  ghost function AcquiredHits(m: Manager, req: Req): (e: Cache)
    requires Inv(m)
    ensures Consistent(e, Held(m) + multiset(PlanReuse(m, req)))
  {
    var keys := RequestKeys(m.blockSize, req.prompt);
    HitsExist(m.cache, Held(m), keys, |keys|);
    AcquireMany(m.cache, Held(m), PlanReuse(m, req))
  }

  /** The hits, then as many fresh blocks as the plan misses. */
  ghost function Gather(m: Manager, req: Req): (t: Taking)
    requires Inv(m)
    ensures var hits := PlanReuse(m, req);
      && Consistent(t.cache, Held(m) + multiset(hits + t.refs))
      && |t.refs| <= Max(0, Misses(m, req)) && (t.ok ==> |t.refs| == Max(0, Misses(m, req)))
  {
    var hits := PlanReuse(m, req);
    var t := TakeMany(AcquiredHits(m, req), Held(m) + multiset(hits), GPU, Max(0, Misses(m, req)));
    assert Held(m) + multiset(hits + t.refs) == Held(m) + multiset(hits) + multiset(t.refs);
    t
  }

  /** `allocate` when blocks run out: everything taken so far is given back, last first. */
  ghost function GiveBack(m: Manager, req: Req): (e: Cache)
    requires Inv(m)
    ensures Consistent(e, Held(m))
  {
    var taken := PlanReuse(m, req) + Gather(m, req).refs;
    var e := ReleaseMany(Gather(m, req).cache, Held(m) + multiset(taken), Reversed(taken));
    assert Held(m) + multiset(taken) - multiset(Reversed(taken)) == Held(m);
    e
  }

  /** The k-th of `refs` is a clean block with a single reference that nobody in `held` has. */
  ghost predicate FreshAt(c: Cache, held: multiset<Ref>, refs: seq<Ref>, k: nat) {
    k < |refs| && Clean(BlockAt(c, refs[k])) && Refs(c, refs[k]) == 1 && held[refs[k]] == 0
  }

  ghost predicate AllFresh(c: Cache, held: multiset<Ref>, refs: seq<Ref>) {
    forall k :: 0 <= k < |refs| ==> FreshAt(c, held, refs, k)
  }

  ghost predicate Untouched(c: Cache, e: Cache, held: multiset<Ref>) {
    forall r :: r in held ==> BlockAt(e, r) == BlockAt(c, r)
  }

  lemma {:induction false} FreshStep(c: Cache, e: Cache, held: multiset<Ref>, refs: seq<Ref>, r: Ref, all: seq<Ref>)
    requires AllFresh(c, held, refs) && OnlyRef(c, e, r) && (held + multiset(refs))[r] == 0
    requires Clean(BlockAt(e, r)) && Refs(e, r) == 1 && all == refs + [r]
    ensures AllFresh(e, held, all) && Untouched(c, e, held)
  {
    forall k | 0 <= k < |all| ensures FreshAt(e, held, all, k) {
      if k < |refs| {
        assert FreshAt(c, held, refs, k) && refs[k] in multiset(refs);
        assert BlockAt(e, refs[k]) == BlockAt(c, refs[k]);
      }
    }
  }

  /** One more block, if one is free. */
  lemma {:induction false} TakeNext(c: Cache, held: multiset<Ref>, d: Device, n: nat, t: Taking, u: Taking) returns (r: Ref)
    requires Consistent(c, held) && n > 0 && t == TakeMany(c, held, d, n - 1) && u == TakeMany(c, held, d, n)
    ensures if t.ok && NumFree(PoolOf(t.cache, d)) > 0
            then u.ok && u.refs == t.refs + [r] && OnlyRef(t.cache, u.cache, r) && (held + multiset(t.refs))[r] == 0
                 && Clean(BlockAt(u.cache, r)) && Refs(u.cache, r) == 1
            else u == t.(ok := false)
  {
    hide Consistent, PoolOk, Allocate, OnlyRef;
    r := Ref(d, 0);
    if t.ok && NumFree(PoolOf(t.cache, d)) > 0 {
      AllocateFresh(t.cache, held + multiset(t.refs), d);
      r := Allocate(t.cache, d).1;
    }
  }

  /** What `TakeMany` hands out is fresh, and nobody else's blocks change. */
  lemma {:induction false} FreshBlocks(c: Cache, held: multiset<Ref>, d: Device, n: nat)
    requires Consistent(c, held)
    ensures var t := TakeMany(c, held, d, n); AllFresh(t.cache, held, t.refs) && Untouched(c, t.cache, held)
    decreases n
  {
    hide Consistent, TakeMany, OnlyRef;
    if n == 0 {
      TakeNone(c, held, d);
    } else {
      var t, u := TakeMany(c, held, d, n - 1), TakeMany(c, held, d, n);
      FreshBlocks(c, held, d, n - 1);
      var r := TakeNext(c, held, d, n, t, u);
      if u.ok { FreshStep(t.cache, u.cache, held, t.refs, r, u.refs); }
    }
  }

  ghost function AllocateOp(m: Manager, req: Req): Step
    requires Inv(m)
  {
    if Table(m, req.id) != [] then Step(m, Some(SimulationStateError))
    else
      var t := Gather(m, req);
      if !t.ok then Step(m.(cache := GiveBack(m, req)), Some(OutOfBlocksError))
      else
        var hits, keys := PlanReuse(m, req), RequestKeys(m.blockSize, req.prompt);
        PendingReady(m, req);
        Step(m.(cache := MarkMany(t.cache, Held(m) + multiset(hits + t.refs), t.refs, keys[|hits|..]),
                table := m.table[req.id := hits + t.refs],
                keys := m.keys[req.id := keys],
                committed := m.committed - {req.id}), None)
  }

  lemma {:induction false} FreshIsPrivate(c: Cache, held: multiset<Ref>, all: multiset<Ref>, refs: seq<Ref>)
    requires AllFresh(c, held, refs) && multiset(refs) <= all
    ensures AllHeld(all, refs) && AllPrivate(c, refs)
  {
    forall k | 0 <= k < |refs| ensures refs[k] in all && !BlockAt(c, refs[k]).cached {
      assert FreshAt(c, held, refs, k) && refs[k] in multiset(refs);
    }
  }

  lemma {:induction false} PendingReady(m: Manager, req: Req)
    requires Inv(m)
    ensures var hits, t := PlanReuse(m, req), Gather(m, req);
      && AllFresh(t.cache, Held(m) + multiset(hits), t.refs)
      && AllHeld(Held(m) + multiset(hits + t.refs), t.refs) && AllPrivate(t.cache, t.refs)
      && |hits| <= |RequestKeys(m.blockSize, req.prompt)|
  {
    hide Consistent, AcquiredHits;
    var hits, t := PlanReuse(m, req), Gather(m, req);
    FreshBlocks(AcquiredHits(m, req), Held(m) + multiset(hits), GPU, Max(0, Misses(m, req)));
    assert multiset(hits + t.refs) == multiset(hits) + multiset(t.refs);
    FreshIsPrivate(t.cache, Held(m) + multiset(hits), Held(m) + multiset(hits + t.refs), t.refs);
  }

  lemma {:induction false} AllocateTwice(m: Manager, req: Req)
    requires Inv(m)
    ensures Table(m, req.id) != [] ==> AllocateOp(m, req) == Step(m, Some(SimulationStateError))
  {
    hide Consistent;
  }

  lemma {:induction false} AllocateUndone(m: Manager, req: Req, taken: seq<Ref>, c: Cache)
    requires Inv(m) && Table(m, req.id) == [] && !Gather(m, req).ok
    requires taken == PlanReuse(m, req) + Gather(m, req).refs && c == Gather(m, req).cache
    ensures multiset(Reversed(taken)) <= Held(m) + multiset(taken) && Consistent(c, Held(m) + multiset(taken))
    ensures AllocateOp(m, req) ==
      Step(m.(cache := ReleaseMany(c, Held(m) + multiset(taken), Reversed(taken))), Some(OutOfBlocksError))
  {
    hide Consistent, PlanReuse, Gather, ReleaseMany, MarkMany;
  }

  lemma {:induction false} AllocateDone(m: Manager, req: Req, names: seq<Key>, hits: seq<Ref>, t: Taking)
    requires Inv(m) && Table(m, req.id) == [] && t == Gather(m, req) && t.ok
    requires hits == PlanReuse(m, req) && names == RequestKeys(m.blockSize, req.prompt)
    ensures |hits| <= |names| && Consistent(t.cache, Held(m) + multiset(hits + t.refs))
    ensures AllHeld(Held(m) + multiset(hits + t.refs), t.refs) && AllPrivate(t.cache, t.refs)
    ensures AllocateOp(m, req) ==
      Step(m.(cache := MarkMany(t.cache, Held(m) + multiset(hits + t.refs), t.refs, names[|hits|..]),
              table := m.table[req.id := hits + t.refs], keys := m.keys[req.id := names],
              committed := m.committed - {req.id}), None)
  {
    hide Consistent, PlanReuse, Gather, ReleaseMany, MarkMany, RequestKeys;
    PendingReady(m, req);
  }

  /** Admission keeps the counts, whether it succeeds or is undone. */
  lemma {:induction false} AllocateKeeps(m: Manager, req: Req)
    requires Inv(m)
    ensures Inv(AllocateOp(m, req).after)
  {
    hide Consistent;
    if Table(m, req.id) == [] {
      var hits, t := PlanReuse(m, req), Gather(m, req);
      HoldersSet(m.table, req.id, hits + t.refs);
      if t.ok {
        PendingReady(m, req);
        assert Held(AllocateOp(m, req).after) == Held(m) + multiset(hits + t.refs);
      }
    }
  }

  // ----- publishing and releasing -----

  lemma {:induction false} TableHeld(m: Manager, id: RequestId)
    ensures multiset(Table(m, id)) <= Held(m) && AllHeld(Held(m), Table(m, id))
  {
    HoldersSet(m.table, id, []);
    forall k | 0 <= k < |Table(m, id)| ensures Table(m, id)[k] in Held(m) {
      assert Table(m, id)[k] in multiset(Table(m, id));
    }
  }

  lemma {:induction false} SliceHeld(held: multiset<Ref>, refs: seq<Ref>, lo: nat, hi: nat)
    requires AllHeld(held, refs) && lo <= hi <= |refs|
    ensures AllHeld(held, refs[lo..hi])
  {
    forall k | 0 <= k < |refs[lo..hi]| ensures refs[lo..hi][k] in held { assert refs[lo..hi][k] == refs[lo + k]; }
  }

  /** `commit_input_cache`: publishes the input blocks once per admission. */
  ghost function CommitInputOp(m: Manager, id: RequestId): Manager
    requires Inv(m)
  {
    if id in m.committed then m
    else
      TableHeld(m, id);
      m.(cache := RegisterMany(m.cache, Held(m), Table(m, id), InputKeys(m, id)), committed := m.committed + {id})
  }

  lemma {:induction false} CommitInputKeeps(m: Manager, id: RequestId)
    requires Inv(m)
    ensures Inv(CommitInputOp(m, id)) && CommitInputOp(m, id).table == m.table && CommitInputOp(m, id).reserved == m.reserved
  {
    hide Consistent;
    TableHeld(m, id);
    assert Held(CommitInputOp(m, id)) == Held(m);
  }

  /** Full output blocks are published only behind a fully hashed, block-aligned input. */
  predicate PublishesOutput(blockSize: nat, prompt: Prompt) {
    && blockSize > 0 && prompt.outputIds != [] && prompt.prefillLen % blockSize == 0
    && |prompt.hashIds| >= FullInputBlocks(blockSize, prompt)
    && Div(prompt.decodeLen, blockSize) > 0
  }

  /** The signatures of all blocks a request can ever publish. */
  function AllSignatures(blockSize: nat, prompt: Prompt): seq<string> {
    if PublishesOutput(blockSize, prompt)
    then prompt.hashIds[..FullInputBlocks(blockSize, prompt)]
         + prompt.outputIds[..Min(Div(prompt.decodeLen, blockSize), |prompt.outputIds|)]
    else InputSignatures(blockSize, prompt)
  }

  function OutputKeys(blockSize: nat, prompt: Prompt): seq<Key>
    requires PublishesOutput(blockSize, prompt)
  {
    var signatures := AllSignatures(blockSize, prompt);
    PlainChain(signatures, prompt.scope, |signatures|)[FullInputBlocks(blockSize, prompt)..]
  }

  /** The blocks behind the input, as far as there are any. */
  function OutputBlocks(m: Manager, req: Req): seq<Ref> {
    var start := FullInputBlocks(m.blockSize, req.prompt);
    if start < |Table(m, req.id)| then Table(m, req.id)[start..] else []
  }

  ghost function RegisterOutputOp(m: Manager, req: Req): Manager
    requires Inv(m)
  {
    if !PublishesOutput(m.blockSize, req.prompt) then m
    else
      TableHeld(m, req.id);
      OutputHeld(m, req);
      m.(cache := RegisterMany(m.cache, Held(m), OutputBlocks(m, req), OutputKeys(m.blockSize, req.prompt)))
  }

  lemma {:induction false} OutputHeld(m: Manager, req: Req)
    ensures AllHeld(Held(m), OutputBlocks(m, req))
  {
    TableHeld(m, req.id);
    var start, refs := FullInputBlocks(m.blockSize, req.prompt), Table(m, req.id);
    if start < |refs| {
      assert refs[start..] == refs[start..|refs|];
      SliceHeld(Held(m), refs, start, |refs|);
    }
  }

  lemma {:induction false} RegisterOutputKeeps(m: Manager, req: Req)
    requires Inv(m)
    ensures Inv(RegisterOutputOp(m, req)) && RegisterOutputOp(m, req).table == m.table && RegisterOutputOp(m, req).reserved == m.reserved
  {
    hide Consistent;
    OutputHeld(m, req);
    assert Held(RegisterOutputOp(m, req)) == Held(m);
  }

  ghost function ReleaseOp(m: Manager, id: RequestId): Manager
    requires Inv(m)
  {
    TableHeld(m, id);
    m.(cache := ReleaseMany(m.cache, Held(m), Table(m, id)), table := m.table - {id})
  }

  lemma {:induction false} ReleaseKeeps(m: Manager, id: RequestId)
    requires Inv(m)
    ensures Inv(ReleaseOp(m, id))
  {
    hide Consistent;
    TableHeld(m, id);
    HoldersSet(m.table, id, []);
    assert Held(ReleaseOp(m, id)) == Held(m) - multiset(Table(m, id));
  }

  /** `free`: publishes what the request computed and gives up its blocks. */
  ghost function FreeOp(m: Manager, req: Req): Manager
    requires Inv(m)
  {
    CommitInputKeeps(m, req.id);
    RegisterOutputKeeps(CommitInputOp(m, req.id), req);
    ReleaseOp(RegisterOutputOp(CommitInputOp(m, req.id), req), req.id)
  }

  lemma {:induction false} FreeKeeps(m: Manager, req: Req)
    requires Inv(m)
    ensures Inv(FreeOp(m, req))
  {
    CommitInputKeeps(m, req.id);
    RegisterOutputKeeps(CommitInputOp(m, req.id), req);
    ReleaseKeeps(RegisterOutputOp(CommitInputOp(m, req.id), req), req.id);
  }

  // ----- decoding -----

  predicate CanAppend(m: Manager, req: Req, reservedBlocks: nat) {
    NumFree(m.cache.gpu) >= (if |Table(m, req.id)| < req.logicalBlocks then 1 else 0) + reservedBlocks
  }

  ghost function AppendOp(m: Manager, req: Req): Step
    requires Inv(m)
  {
    ConsistentPool(m.cache, Held(m), GPU);
    if |Table(m, req.id)| >= req.logicalBlocks then Step(m, None)
    else if NumFree(m.cache.gpu) <= 0 then Step(m, Some(OutOfBlocksError))
    else
      var (e, r) := Allocate(m.cache, GPU);
      Step(m.(cache := e, table := m.table[req.id := Table(m, req.id) + [r]]), None)
  }

  lemma {:induction false} AppendKeeps(m: Manager, req: Req)
    requires Inv(m)
    ensures Inv(AppendOp(m, req).after)
  {
    hide Consistent, PoolOk, Allocate, NumFree, Holders, Clean, OnlyRef, Refs, BlockAt, Exists;
    ConsistentPool(m.cache, Held(m), GPU);
    if |Table(m, req.id)| < req.logicalBlocks && NumFree(m.cache.gpu) > 0 {
      AllocateOk(m.cache, Held(m), GPU);
      var (e, r) := Allocate(m.cache, GPU);
      HoldersSet(m.table, req.id, Table(m, req.id) + [r]);
      assert Held(AppendOp(m, req).after) == Held(m) + multiset{r};
    }
  }

  /** `set_blocks`: an empty list removes the row. */
  function WithRow(table: map<RequestId, seq<Ref>>, id: RequestId, refs: seq<Ref>): map<RequestId, seq<Ref>> {
    if refs == [] then table - {id} else table[id := refs]
  }

  lemma {:induction false} HoldersRow(table: map<RequestId, seq<Ref>>, id: RequestId, refs: seq<Ref>)
    ensures Holders(WithRow(table, id, refs)) == Holders(table - {id}) + multiset(refs)
    ensures Holders(table) == Holders(table - {id}) + multiset(if id in table then table[id] else [])
  {
    HoldersSet(table, id, refs);
  }

  ghost function RollbackOp(m: Manager, id: RequestId): Manager
    requires Inv(m)
  {
    var refs := Table(m, id);
    if refs == [] then m
    else
      LastHeld(m, id);
      ReleaseOk(m.cache, Held(m), refs[|refs| - 1]);
      m.(cache := Release(m.cache, refs[|refs| - 1]), table := WithRow(m.table, id, refs[..|refs| - 1]))
  }

  lemma {:induction false} LastHeld(m: Manager, id: RequestId)
    requires Table(m, id) != []
    ensures Table(m, id)[|Table(m, id)| - 1] in Held(m)
  {
    TableHeld(m, id);
  }

  lemma {:induction false} RollbackKeeps(m: Manager, id: RequestId)
    requires Inv(m)
    ensures Inv(RollbackOp(m, id))
  {
    hide Consistent;
    var refs := Table(m, id);
    if refs != [] {
      var front, last := refs[..|refs| - 1], refs[|refs| - 1];
      assert refs == front + [last];
      LastHeld(m, id);
      ReleaseOk(m.cache, Held(m), last);
      HoldersRow(m.table, id, front);
      assert Held(RollbackOp(m, id)) == Held(m) - multiset{last};
    }
  }

  // ----- sharing and moving -----

  lemma {:induction false} HeldExist(c: Cache, held: multiset<Ref>, refs: seq<Ref>)
    requires Consistent(c, held) && AllHeld(held, refs)
    ensures AllExist(c, refs)
  {
    forall k | 0 <= k < |refs| ensures Exists(c, refs[k]) { assert Refs(c, refs[k]) == held[refs[k]]; }
  }

  ghost function ForkOp(m: Manager, parent: RequestId, child: RequestId): Step
    requires Inv(m)
  {
    if Table(m, child) != [] || Table(m, parent) == [] then Step(m, Some(SimulationStateError))
    else
      var refs := Table(m, parent);
      TableHeld(m, parent);
      HeldExist(m.cache, Held(m), refs);
      Step(m.(cache := AcquireMany(m.cache, Held(m), refs), table := m.table[child := refs]), None)
  }

  lemma {:induction false} ForkKeeps(m: Manager, parent: RequestId, child: RequestId)
    requires Inv(m)
    ensures Inv(ForkOp(m, parent, child).after)
  {
    hide Consistent;
    if Table(m, child) == [] && Table(m, parent) != [] {
      var refs := Table(m, parent);
      TableHeld(m, parent);
      HeldExist(m.cache, Held(m), refs);
      HoldersSet(m.table, child, refs);
      assert Held(ForkOp(m, parent, child).after) == Held(m) + multiset(refs);
    }
  }

  predicate AllOn(refs: seq<Ref>, d: Device) {
    forall k :: 0 <= k < |refs| ==> refs[k].device == d
  }

  ghost function SwapOp(m: Manager, id: RequestId, source: Device, target: Device): Step
    requires Inv(m)
  {
    var refs := Table(m, id);
    if !AllOn(refs, source) then Step(m, Some(SimulationStateError))
    else if NumFree(PoolOf(m.cache, target)) < |refs| then Step(m, Some(OutOfBlocksError))
    else
      var t := CopyMany(m.cache, Held(m), refs, target, |refs|);
      TableHeld(m, id);
      Step(m.(cache := ReleaseMany(t.cache, Held(m) + multiset(t.refs), refs), table := WithRow(m.table, id, t.refs)), None)
  }

  lemma {:induction false} SwapKeeps(m: Manager, id: RequestId, source: Device, target: Device)
    requires Inv(m)
    ensures Inv(SwapOp(m, id, source, target).after)
  {
    hide Consistent, CopyMany, ReleaseMany, Holders, NumFree;
    var refs := Table(m, id);
    if AllOn(refs, source) && NumFree(PoolOf(m.cache, target)) >= |refs| {
      var t := CopyMany(m.cache, Held(m), refs, target, |refs|);
      TableHeld(m, id);
      HoldersRow(m.table, id, t.refs);
      assert Held(SwapOp(m, id, source, target).after) == Held(m) + multiset(t.refs) - multiset(refs);
    }
  }

  // ----- reservations -----

  ghost function ReserveOp(m: Manager, n: int): Step
    requires Inv(m)
  {
    var t := TakeMany(m.cache, Held(m), GPU, Max(0, n));
    if !t.ok then
      Step(m.(cache := ReleaseMany(t.cache, Held(m) + multiset(t.refs), t.refs)), Some(OutOfBlocksError))
    else Step(m.(cache := t.cache, reserved := m.reserved + t.refs), None)
  }

  lemma {:induction false} ReserveKeeps(m: Manager, n: int)
    requires Inv(m)
    ensures Inv(ReserveOp(m, n).after)
  {
    hide Consistent;
    var t := TakeMany(m.cache, Held(m), GPU, Max(0, n));
    assert Held(m) + multiset(t.refs) - multiset(t.refs) == Held(m);
    assert Holders(m.table) + multiset(m.reserved + t.refs) == Held(m) + multiset(t.refs);
  }

  /** Gives back the first `n` reserved blocks, or all of them. */
  ghost function ReleaseReservedOp(m: Manager, count: Option<int>): Step
    requires Inv(m)
  {
    var n := if count.Some? then count.value else |m.reserved|;
    if n < 0 || n > |m.reserved| then Step(m, Some(SimulationStateError))
    else
      assert m.reserved == m.reserved[..n] + m.reserved[n..];
      assert multiset(m.reserved[..n]) <= Held(m);
      Step(m.(cache := ReleaseMany(m.cache, Held(m), m.reserved[..n]), reserved := m.reserved[n..]), None)
  }

  lemma {:induction false} ReleaseReservedKeeps(m: Manager, count: Option<int>)
    requires Inv(m)
    ensures Inv(ReleaseReservedOp(m, count).after)
  {
    hide Consistent;
    var n := if count.Some? then count.value else |m.reserved|;
    if 0 <= n <= |m.reserved| {
      assert m.reserved == m.reserved[..n] + m.reserved[n..];
      assert Held(m) - multiset(m.reserved[..n]) == Holders(m.table) + multiset(m.reserved[n..]);
    }
  }
}
