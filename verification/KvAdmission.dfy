/** Admission: when `can_allocate` says yes, `allocate` cannot run out of blocks or lose what it reuses. */
module KvAdmission {
  import opened Common
  import opened PrefixKeys
  import opened KvPool
  import opened KvCache
  import opened KvManager
  import opened KvLabels

  ghost predicate DistinctRefs(refs: seq<Ref>) {
    forall i, j :: 0 <= i < j < |refs| ==> refs[i] != refs[j]
  }

  /** Different keys lead to different blocks. */
  lemma {:induction false} HitsDistinct(m: Manager, req: Req)
    requires Inv(m)
    ensures DistinctRefs(PlanReuse(m, req))
  {
    var signatures := InputSignatures(m.blockSize, req.prompt);
    var keys, hits := RequestKeys(m.blockSize, req.prompt), PlanReuse(m, req);
    forall i, j | 0 <= i < j < |hits| ensures hits[i] != hits[j] {
      HitAt(m.cache, keys, |keys|, i);
      HitAt(m.cache, keys, |keys|, j);
      ChainAt(signatures, req.prompt.scope, |keys|, i);
      ChainAt(signatures, req.prompt.scope, |keys|, j);
      assert Sound(m.cache, keys[i]) && Sound(m.cache, keys[j]);
      if keys[i] == keys[j] { KeyInjective(signatures, req.prompt.scope, i, signatures, req.prompt.scope, j); }
    }
  }

  lemma {:induction false} ZeroRefsSame(c: Cache, e: Cache, r: Ref, refs: seq<Ref>)
    requires OnlyRef(c, e, r) && r !in refs
    ensures ZeroRefs(e, refs) == ZeroRefs(c, refs)
    decreases |refs|
  {
    if refs != [] {
      assert BlockAt(e, refs[0]) == BlockAt(c, refs[0]);
      ZeroRefsSame(c, e, r, refs[1..]);
    }
  }

  /** Taking hold of distinct GPU blocks uses up exactly those that nobody referenced. */
  lemma {:induction false} AcquireUses(c: Cache, held: multiset<Ref>, refs: seq<Ref>)
    requires Consistent(c, held) && AllExist(c, refs) && AllOn(refs, GPU) && DistinctRefs(refs)
    ensures var e := AcquireMany(c, held, refs);
      NumFree(e.gpu) == NumFree(c.gpu) - ZeroRefs(c, refs) && e.index == c.index
    decreases |refs|
  {
    if refs != [] {
      AcquireOk(c, held, refs[0]);
      var e := Acquire(c, refs[0]);
      assert refs[0] !in refs[1..];
      ZeroRefsSame(c, e, refs[0], refs[1..]);
      hide Consistent;
      AcquireUses(e, held + multiset{refs[0]}, refs[1..]);
    }
  }

  lemma {:induction false} TakeSucceeds(c: Cache, held: multiset<Ref>, d: Device, n: nat)
    requires Consistent(c, held) && n <= NumFree(PoolOf(c, d))
    ensures var t := TakeMany(c, held, d, n);
      t.ok && NumFree(PoolOf(t.cache, d)) == NumFree(PoolOf(c, d)) - n
    decreases n
  {
    hide Consistent, PoolOk, Allocate;
    if n > 0 {
      TakeSucceeds(c, held, d, n - 1);
      var t := TakeMany(c, held, d, n - 1);
      ConsistentPool(t.cache, held + multiset(t.refs), d);
      AllocateOk(t.cache, held + multiset(t.refs), d);
    }
  }

  /** Index entries that lead to a held block. */
  ghost predicate KeepsEntries(c: Cache, e: Cache, held: multiset<Ref>) {
    forall k :: k in c.index && c.index[k] in held ==> k in e.index && e.index[k] == c.index[k]
  }

  lemma {:induction false} EntriesKept(c: Cache, held: multiset<Ref>)
    ensures KeepsEntries(c, c, held)
  {
  }

  /** Handing out one more block drops at most the entry that leads to it. */
  lemma {:induction false} OneTakeKeepsEntries(c: Cache, held: multiset<Ref>, before: Cache, now: multiset<Ref>, d: Device, after: Cache)
    requires Consistent(before, now) && NumFree(PoolOf(before, d)) > 0 && after == Allocate(before, d).0
    requires KeepsEntries(c, before, held) && held <= now
    ensures KeepsEntries(c, after, held)
  {
    hide Consistent, PoolOk, Allocate, NumFree, Clean, OnlyRef;
    AllocateOk(before, now, d);
    forall k | k in c.index && c.index[k] in held ensures k in after.index && after.index[k] == c.index[k] {
      assert before.index[k] == c.index[k];
    }
  }

  /** Handing out blocks never drops an entry for a block somebody holds. */
  lemma {:induction false} TakeKeepsEntries(c: Cache, held: multiset<Ref>, d: Device, n: nat)
    requires Consistent(c, held)
    ensures KeepsEntries(c, TakeMany(c, held, d, n).cache, held)
    decreases n
  {
    hide Consistent, PoolOk, Allocate, NumFree, KeepsEntries;
    if n > 0 {
      TakeKeepsEntries(c, held, d, n - 1);
      var t := TakeMany(c, held, d, n - 1);
      if t.ok && NumFree(PoolOf(t.cache, d)) > 0 {
        ConsistentPool(t.cache, held + multiset(t.refs), d);
        OneTakeKeepsEntries(c, held, t.cache, held + multiset(t.refs), d, Allocate(t.cache, d).0);
      }
    } else {
      EntriesKept(c, held);
    }
  }

  lemma {:induction false} MarkKeeps(c: Cache, held: multiset<Ref>, refs: seq<Ref>, keys: seq<Key>, others: multiset<Ref>)
    requires Consistent(c, held) && AllHeld(held, refs) && AllPrivate(c, refs)
    requires forall k :: 0 <= k < |refs| ==> others[refs[k]] == 0
    ensures var e := MarkMany(c, held, refs, keys);
      && e.index == c.index && NumFree(e.gpu) == NumFree(c.gpu) && NumFree(e.cpu) == NumFree(c.cpu)
      && Untouched(c, e, others) && forall r :: Refs(e, r) == Refs(c, r)
    decreases |refs|
  {
    hide PoolOk, OnlyRef;
    if refs != [] && keys != [] {
      MarkOk(c, held, refs[0], Some(keys[0]), true);
      var e := Mark(c, refs[0], Some(keys[0]), true);
      PrivateAfter(c, e, refs);
      assert forall k :: 0 <= k < |refs[1..]| ==> others[refs[1..][k]] == 0;
      hide Consistent;
      MarkKeeps(e, held, refs[1..], keys[1..], others);
      forall r ensures Refs(e, r) == Refs(c, r) { if r != refs[0] { assert BlockAt(e, r) == BlockAt(c, r); } }
      forall r | r in others ensures BlockAt(e, r) == BlockAt(c, r) { assert r != refs[0]; }
    }
  }

  lemma {:induction false} HitsOnGpu(c: Cache, keys: seq<Key>, n: nat)
    requires n <= |keys|
    ensures AllOn(Hits(c, keys, n), GPU)
  {
    forall i | 0 <= i < |Hits(c, keys, n)| ensures Hits(c, keys, n)[i].device == GPU { HitAt(c, keys, n, i); }
  }

  lemma {:induction false} HitsAcquired(m: Manager, req: Req)
    requires Inv(m)
    ensures var c := AcquiredHits(m, req);
      && NumFree(c.gpu) == NumFree(m.cache.gpu) - ZeroRefs(m.cache, PlanReuse(m, req)) && c.index == m.cache.index
      && NumFree(c.gpu) >= 0
  {
    var keys, hits := RequestKeys(m.blockSize, req.prompt), PlanReuse(m, req);
    HitsExist(m.cache, Held(m), keys, |keys|);
    HitsOnGpu(m.cache, keys, |keys|);
    HitsDistinct(m, req);
    AcquireUses(m.cache, Held(m), hits);
    ConsistentPool(AcquiredHits(m, req), Held(m) + multiset(hits), GPU);
  }

  /** Enough is left for the misses once the hits are held, and the hits stay in the index. */
  lemma {:induction false} GatherSucceeds(m: Manager, req: Req)
    requires Inv(m) && CanAllocate(m, req)
    ensures var hits, t := PlanReuse(m, req), Gather(m, req);
      && t.ok && KeepsEntries(m.cache, t.cache, Held(m) + multiset(hits))
      && AllFresh(t.cache, Held(m) + multiset(hits), t.refs)
      && Untouched(AcquiredHits(m, req), t.cache, Held(m) + multiset(hits))
  {
    hide Consistent, AcquiredHits, PlanReuse, TakeMany;
    HitsAcquired(m, req);
    var c, held, n := AcquiredHits(m, req), Held(m) + multiset(PlanReuse(m, req)), Max(0, Misses(m, req));
    TakeSucceeds(c, held, GPU, n);
    TakeKeepsEntries(c, held, GPU, n);
    FreshBlocks(c, held, GPU, n);
  }

  lemma {:induction false} AcquireKeepsLabels(c: Cache, held: multiset<Ref>, refs: seq<Ref>, r: Ref)
    requires Consistent(c, held) && AllExist(c, refs)
    ensures var e := AcquireMany(c, held, refs);
      BlockAt(e, r).hash == BlockAt(c, r).hash && BlockAt(e, r).cached == BlockAt(c, r).cached && BlockAt(e, r).full == BlockAt(c, r).full
    decreases |refs|
  {
    if refs != [] {
      AcquireOk(c, held, refs[0]);
      var e := Acquire(c, refs[0]);
      if r != refs[0] { assert BlockAt(e, r) == BlockAt(c, r); }
      hide Consistent;
      AcquireKeepsLabels(e, held + multiset{refs[0]}, refs[1..], r);
    }
  }

  /**
    If `can_allocate` holds, `allocate` succeeds: the request holds the hits followed by added blocks
    that nobody else holds, and every block it reuses is still published under its key.
   */
  lemma {:induction false} AdmissionSound(m: Manager, req: Req)
    requires Inv(m) && CanAllocate(m, req) && Table(m, req.id) == []
    ensures var hits, added, n := PlanReuse(m, req), Gather(m, req).refs, AllocateOp(m, req).after;
      && AllocateOp(m, req).error.None?
      && Table(n, req.id) == hits + added && |added| == Max(0, req.logicalBlocks - |hits|)
      && (forall k :: 0 <= k < |added| ==> Refs(n.cache, added[k]) == 1 && Held(m)[added[k]] == 0 && added[k] !in hits)
      && (forall i :: 0 <= i < |hits| ==>
            var key := RequestKeys(m.blockSize, req.prompt)[i];
            IsHit(n.cache, key) && n.cache.index[key] == hits[i])
  {
    hide Consistent, AcquiredHits, TakeMany, PlanReuse, Gather, MarkMany, RequestKeys;
    GatherSucceeds(m, req);
    PendingReady(m, req);
    var hits, t, n := PlanReuse(m, req), Gather(m, req), AllocateOp(m, req).after;
    var all, keys := Held(m) + multiset(hits), RequestKeys(m.blockSize, req.prompt);
    forall k | 0 <= k < |t.refs| ensures all[t.refs[k]] == 0 { assert FreshAt(t.cache, all, t.refs, k); }
    MarkKeeps(t.cache, Held(m) + multiset(hits + t.refs), t.refs, keys[|hits|..], all);
    forall k | 0 <= k < |t.refs| ensures Refs(n.cache, t.refs[k]) == 1 && Held(m)[t.refs[k]] == 0 && t.refs[k] !in hits {
      assert FreshAt(t.cache, all, t.refs, k);
    }
    forall i | 0 <= i < |hits| ensures IsHit(n.cache, keys[i]) && n.cache.index[keys[i]] == hits[i] {
      HitKept(m, req, t.cache, n.cache, i);
    }
  }

  lemma {:induction false} HitKept(m: Manager, req: Req, c: Cache, e: Cache, i: nat)
    requires Inv(m) && i < |PlanReuse(m, req)| && e.index == c.index
    requires KeepsEntries(m.cache, c, Held(m) + multiset(PlanReuse(m, req)))
    requires Untouched(AcquiredHits(m, req), c, Held(m) + multiset(PlanReuse(m, req)))
    requires Untouched(c, e, Held(m) + multiset(PlanReuse(m, req)))
    ensures var key := RequestKeys(m.blockSize, req.prompt)[i];
      IsHit(e, key) && e.index[key] == PlanReuse(m, req)[i]
  {
    var keys, hits := RequestKeys(m.blockSize, req.prompt), PlanReuse(m, req);
    HitAt(m.cache, keys, |keys|, i);
    HitsExist(m.cache, Held(m), keys, |keys|);
    AcquireKeepsLabels(m.cache, Held(m), hits, hits[i]);
    hide Consistent, AcquireMany;
    assert hits[i] in multiset(hits);
    assert BlockAt(e, hits[i]) == BlockAt(AcquiredHits(m, req), hits[i]);
  }
}
