/** Whole runs of the block manager: what holds after any sequence of operations, failed ones included. */
module KvRuns {
  import opened Common
  import opened PrefixKeys
  import opened KvPool
  import opened KvCache
  import opened KvManager
  import opened KvLabels

  datatype Action =
    | Admit(req: Req)
    | CommitInput(id: RequestId)
    | Finish(req: Req)
    | Drop(id: RequestId)
    | Grow(req: Req)
    | Rollback(id: RequestId)
    | Fork(parent: RequestId, child: RequestId)
    | Swap(id: RequestId, source: Device, target: Device)
    | Reserve(count: int)
    | Unreserve(amount: Option<int>)

  /** One call; when it raises, the state it leaves behind. */
  ghost function Apply(m: Manager, a: Action): (n: Manager)
    requires Inv(m)
    ensures Inv(n)
  {
    match a
    case Admit(req) => AllocateKeeps(m, req); AllocateOp(m, req).after
    case CommitInput(id) => CommitInputKeeps(m, id); CommitInputOp(m, id)
    case Finish(req) => FreeKeeps(m, req); FreeOp(m, req)
    case Drop(id) => ReleaseKeeps(m, id); ReleaseOp(m, id)
    case Grow(req) => AppendKeeps(m, req); AppendOp(m, req).after
    case Rollback(id) => RollbackKeeps(m, id); RollbackOp(m, id)
    case Fork(parent, child) => ForkKeeps(m, parent, child); ForkOp(m, parent, child).after
    case Swap(id, source, target) => SwapKeeps(m, id, source, target); SwapOp(m, id, source, target).after
    case Reserve(count) => ReserveKeeps(m, count); ReserveOp(m, count).after
    case Unreserve(amount) => ReleaseReservedKeeps(m, amount); ReleaseReservedOp(m, amount).after
  }

  /** Nothing allocated, nothing published. */
  ghost function NewManager(blockSize: nat, watermark: nat, gpuBlocks: nat, cpuBlocks: nat): (m: Manager)
    ensures Inv(m)
  {
    var m := Manager(blockSize, watermark, Cache(NewPool(gpuBlocks), NewPool(cpuBlocks), map[], 0), map[], [], map[], {});
    assert Held(m) == multiset{};
    m
  }

  ghost function Run(m: Manager, actions: seq<Action>): (n: Manager)
    requires Inv(m)
    ensures Inv(n)
    decreases |actions|
  {
    if actions == [] then m else Run(Apply(m, actions[0]), actions[1..])
  }

  // ----- reference counts, queues and capacity -----

  /** How often block `r` occurs in the first `n` places of a list. */
  function Occurrences(refs: seq<Ref>, r: Ref, n: nat): nat
    requires n <= |refs|
  {
    if n == 0 then 0 else Occurrences(refs, r, n - 1) + (if refs[n - 1] == r then 1 else 0)
  }

  lemma {:induction false} OccurrencesAre(refs: seq<Ref>, r: Ref, n: nat)
    requires n <= |refs|
    ensures multiset(refs[..n])[r] == Occurrences(refs, r, n)
    decreases n
  {
    if n > 0 {
      OccurrencesAre(refs, r, n - 1);
      assert refs[..n] == refs[..n - 1] + [refs[n - 1]];
    } else {
      assert refs[..n] == [];
    }
  }

  /** How often `r` occurs in the block table. */
  ghost function TableOccurrences(table: map<RequestId, seq<Ref>>, r: Ref): nat
    decreases |table|
  {
    if |table| == 0 then 0
    else
      var id :| id in table;
      TableOccurrences(table - {id}, r) + Occurrences(table[id], r, |table[id]|)
  }

  lemma {:induction false} TableOccurrencesAre(table: map<RequestId, seq<Ref>>, r: Ref)
    ensures Holders(table)[r] == TableOccurrences(table, r)
    decreases |table|
  {
    if |table| > 0 {
      var id :| id in table && TableOccurrences(table, r) == TableOccurrences(table - {id}, r) + Occurrences(table[id], r, |table[id]|);
      TableOccurrencesAre(table - {id}, r);
      HoldersSplit(table, id);
      OccurrencesAre(table[id], r, |table[id]|);
      assert table[id][..|table[id]|] == table[id];
    }
  }

  /**
    After any run every block of either device has as many references as it has occurrences in the
    block table and among the reserved blocks; exactly the materialised blocks without references are
    queued as free; and free and referenced blocks add up to the capacity.
   */
  lemma {:induction false} RunsAreConsistent(m: Manager, actions: seq<Action>, d: Device, b: nat)
    requires Inv(m)
    ensures var n := Run(m, actions);
      var pool := PoolOf(n.cache, d);
      && (b < |pool.blocks| ==>
            && pool.blocks[b].refs == TableOccurrences(n.table, Ref(d, b)) + Occurrences(n.reserved, Ref(d, b), |n.reserved|)
            && (pool.blocks[b].refs == 0 <==> b in pool.free.fifo || b in pool.free.lru))
      && (b >= |pool.blocks| ==> b !in pool.free.fifo && b !in pool.free.lru)
      && NumFree(pool) + Busy(pool.blocks, |pool.blocks|) == pool.capacity
  {
    var n := Run(m, actions);
    var pool := PoolOf(n.cache, d);
    ConsistentPool(n.cache, Held(n), d);
    Conservation(pool);
    if b < |pool.blocks| {
      assert BlockOk(pool, b);
      assert Refs(n.cache, Ref(d, b)) == Held(n)[Ref(d, b)];
      TableOccurrencesAre(n.table, Ref(d, b));
      OccurrencesAre(n.reserved, Ref(d, b), |n.reserved|);
      assert n.reserved[..|n.reserved|] == n.reserved;
    }
  }

  // ----- prefix reuse -----

  /** Requests show their own prompts, and forks go only onto requests with equal keys. */
  ghost predicate Legal(m: Manager, a: Action, prompts: RequestId -> Prompt) {
    match a
    case Admit(req) => req.prompt == prompts(req.id)
    case Finish(req) => req.prompt == prompts(req.id)
    case Grow(req) => req.prompt == prompts(req.id)
    case Fork(parent, child) => SamePlaces(m.blockSize, prompts(parent), prompts(child), |Table(m, parent)|)
    case _ => true
  }

  ghost predicate LegalRun(m: Manager, actions: seq<Action>, prompts: RequestId -> Prompt)
    requires Inv(m)
    decreases |actions|
  {
    actions == [] || (Legal(m, actions[0], prompts) && LegalRun(Apply(m, actions[0]), actions[1..], prompts))
  }

  lemma {:induction false} ApplyLabels(m: Manager, a: Action, prompts: RequestId -> Prompt, slots: Slots) returns (after: Slots)
    requires Inv(m) && Labelled(m, prompts, slots) && Legal(m, a, prompts)
    ensures Labelled(Apply(m, a), prompts, after)
  {
    hide Labelled, Inv;
    after := slots;
    match a
    case Admit(req) => after := AllocateLabels(m, req, prompts, slots);
    case CommitInput(id) => CommitInputLabels(m, id, prompts, slots);
    case Finish(req) => FreeLabels(m, req, prompts, slots);
    case Drop(id) => ReleaseOpLabels(m, id, prompts, slots);
    case Grow(req) => after := AppendLabels(m, req, prompts, slots);
    case Rollback(id) => RollbackLabels(m, id, prompts, slots);
    case Fork(parent, child) => ForkLabels(m, parent, child, prompts, slots);
    case Swap(id, source, target) => after := SwapLabels(m, id, source, target, prompts, slots);
    case Reserve(count) => after := ReserveLabels(m, count, prompts, slots);
    case Unreserve(amount) => ReleaseReservedLabels(m, amount, prompts, slots);
  }

  lemma {:induction false} RunLabels(m: Manager, actions: seq<Action>, prompts: RequestId -> Prompt, slots: Slots) returns (after: Slots)
    requires Inv(m) && Labelled(m, prompts, slots) && LegalRun(m, actions, prompts)
    ensures Labelled(Run(m, actions), prompts, after)
    decreases |actions|
  {
    hide Labelled, Inv;
    after := slots;
    if actions != [] {
      after := ApplyLabels(m, actions[0], prompts, slots);
      after := RunLabels(Apply(m, actions[0]), actions[1..], prompts, after);
    }
  }

  /** The request `id` has block `r` at place `j`. */
  ghost predicate HoldsAt(m: Manager, id: RequestId, j: nat, r: Ref) {
    j < |Table(m, id)| && Table(m, id)[j] == r
  }

  lemma {:induction false} NewManagerLabelled(m: Manager, prompts: RequestId -> Prompt)
    requires m.table == map[] && m.keys == map[] && m.cache.gpu.blocks == [] && m.cache.cpu.blocks == []
    ensures Labelled(m, prompts, map[])
  {
  }

  /**
    After any legal run, what `plan_reuse` offers for place `i` is the block published under the key of
    that very place, and everybody who holds the block holds it at the same place of a prompt with the
    same scope and the same leading blocks.  The offer ends only at the first key without a GPU block.
   */
  lemma {:induction false} HitsAreSound(blockSize: nat, watermark: nat, gpuBlocks: nat, cpuBlocks: nat, actions: seq<Action>,
                                        prompts: RequestId -> Prompt, req: Req, i: nat, id: RequestId, j: nat)
    requires LegalRun(NewManager(blockSize, watermark, gpuBlocks, cpuBlocks), actions, prompts)
    ensures var m := Run(NewManager(blockSize, watermark, gpuBlocks, cpuBlocks), actions);
      var keys, hits := RequestKeys(m.blockSize, req.prompt), PlanReuse(m, req);
      && (i < |hits| ==>
            && i < |keys| && keys[i] in m.cache.index && m.cache.index[keys[i]] == hits[i]
            && hits[i].device.GPU? && BlockAt(m.cache, hits[i]).hash == Some(keys[i]))
      && (|hits| < |keys| ==> !IsHit(m.cache, keys[|hits|]))
      && (i < |hits| && HoldsAt(m, id, j, hits[i]) ==>
            && i == j && prompts(id).scope == req.prompt.scope
            && i < |AllSignatures(m.blockSize, prompts(id))| && i < |InputSignatures(m.blockSize, req.prompt)|
            && AllSignatures(m.blockSize, prompts(id))[..i + 1] == InputSignatures(m.blockSize, req.prompt)[..i + 1])
  {
    var start := NewManager(blockSize, watermark, gpuBlocks, cpuBlocks);
    NewManagerLabelled(start, prompts);
    var slots := RunLabels(start, actions, prompts, map[]);
    HitsInState(Run(start, actions), prompts, slots, req, i, id, j);
  }

  lemma {:induction false} HitsInState(m: Manager, prompts: RequestId -> Prompt, slots: Slots, req: Req, i: nat, id: RequestId, j: nat)
    requires Inv(m) && Labelled(m, prompts, slots)
    ensures var keys, hits := RequestKeys(m.blockSize, req.prompt), PlanReuse(m, req);
      && (i < |hits| ==>
            && i < |keys| && keys[i] in m.cache.index && m.cache.index[keys[i]] == hits[i]
            && hits[i].device.GPU? && BlockAt(m.cache, hits[i]).hash == Some(keys[i]))
      && (|hits| < |keys| ==> !IsHit(m.cache, keys[|hits|]))
      && (i < |hits| && HoldsAt(m, id, j, hits[i]) ==>
            && i == j && prompts(id).scope == req.prompt.scope
            && i < |AllSignatures(m.blockSize, prompts(id))| && i < |InputSignatures(m.blockSize, req.prompt)|
            && AllSignatures(m.blockSize, prompts(id))[..i + 1] == InputSignatures(m.blockSize, req.prompt)[..i + 1])
  {
    var input := InputSignatures(m.blockSize, req.prompt);
    var keys, hits := RequestKeys(m.blockSize, req.prompt), PlanReuse(m, req);
    if |hits| < |keys| { HitsMaximal(m.cache, keys, |keys|); }
    if i < |hits| {
      HitAt(m.cache, keys, |keys|, i);
      assert Sound(m.cache, keys[i]);
      if HoldsAt(m, id, j, hits[i]) {
        var all := AllSignatures(m.blockSize, prompts(id));
        assert HolderOk(m, prompts, slots, id) && LabelOk(m.cache, slots, hits[i]);
        assert SlotOf(slots, Table(m, id)[j]) == PlaceKey(m.blockSize, prompts(id), 0 + j);
        ChainAt(input, req.prompt.scope, |input|, i);
        KeyInjective(all, prompts(id).scope, j, input, req.prompt.scope, i);
      }
    }
  }
}
