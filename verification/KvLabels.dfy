/**
  Why sharing is sound.  Every block stands for one place of some prompt, its slot: the key of that
  place, if the place has one.  A labelled block is labelled with its slot, and whoever holds a block
  holds it at a place with that very key.  Requests may be forked only onto equal keys.
 */
module KvLabels {
  import opened Common
  import opened PrefixKeys
  import opened KvPool
  import opened KvCache
  import opened KvManager

  type Slots = map<Ref, Option<Key>>

  function SlotOf(slots: Slots, r: Ref): Option<Key> {
    if r in slots then slots[r] else None
  }

  /** The key of place `i` of a prompt, if its content is known. */
  function PlaceKey(blockSize: nat, prompt: Prompt, i: nat): Option<Key> {
    var signatures := AllSignatures(blockSize, prompt);
    if i < |signatures| then Some(KeyAt(signatures, prompt.scope, i)) else None
  }

  ghost predicate LabelOk(c: Cache, slots: Slots, r: Ref) {
    BlockAt(c, r).hash.Some? ==> BlockAt(c, r).hash == SlotOf(slots, r)
  }

  ghost predicate LabelsOk(c: Cache, slots: Slots) {
    forall r :: LabelOk(c, slots, r)
  }

  ghost predicate RowOk(blockSize: nat, prompt: Prompt, refs: seq<Ref>, base: nat, slots: Slots) {
    forall i :: 0 <= i < |refs| ==> SlotOf(slots, refs[i]) == PlaceKey(blockSize, prompt, base + i)
  }

  ghost predicate HolderOk(m: Manager, prompts: RequestId -> Prompt, slots: Slots, id: RequestId) {
    RowOk(m.blockSize, prompts(id), Table(m, id), 0, slots)
  }

  ghost predicate KeysOk(m: Manager, prompts: RequestId -> Prompt, id: RequestId) {
    InputKeys(m, id) == [] || InputKeys(m, id) == RequestKeys(m.blockSize, prompts(id))
  }

  ghost predicate Labelled(m: Manager, prompts: RequestId -> Prompt, slots: Slots) {
    && LabelsOk(m.cache, slots)
    && (forall id :: HolderOk(m, prompts, slots, id))
    && (forall id :: KeysOk(m, prompts, id))
  }

  /** The slots of what is held do not change. */
  ghost predicate SameSlots(a: Slots, b: Slots, held: multiset<Ref>) {
    forall r :: r in held ==> SlotOf(b, r) == SlotOf(a, r)
  }

  // ----- places and keys -----

  lemma {:induction false} InputPlace(blockSize: nat, prompt: Prompt, i: nat)
    requires i < |RequestKeys(blockSize, prompt)|
    ensures PlaceKey(blockSize, prompt, i) == Some(RequestKeys(blockSize, prompt)[i])
  {
    var input, all := InputSignatures(blockSize, prompt), AllSignatures(blockSize, prompt);
    ChainAt(input, prompt.scope, |input|, i);
    assert input[..i] == all[..i] && input[i] == all[i];
    ParentHashOfPrefix(input, all, prompt.scope, i);
  }

  lemma {:induction false} OutputPlace(blockSize: nat, prompt: Prompt, j: nat)
    requires PublishesOutput(blockSize, prompt) && j < |OutputKeys(blockSize, prompt)|
    ensures PlaceKey(blockSize, prompt, FullInputBlocks(blockSize, prompt) + j) == Some(OutputKeys(blockSize, prompt)[j])
  {
    var all := AllSignatures(blockSize, prompt);
    ChainAt(all, prompt.scope, |all|, FullInputBlocks(blockSize, prompt) + j);
  }

  // ----- cache operations keep labels -----

  lemma {:induction false} LabelsFrom(c: Cache, e: Cache, r: Ref, slots: Slots, after: Slots)
    requires LabelsOk(c, slots) && OnlyRef(c, e, r) && (forall q :: q != r ==> SlotOf(after, q) == SlotOf(slots, q))
    requires LabelOk(e, after, r)
    ensures LabelsOk(e, after)
  {
    forall q ensures LabelOk(e, after, q) {
      assert LabelOk(c, slots, q);
      if q != r { assert BlockAt(e, q) == BlockAt(c, q); }
    }
  }

  lemma {:induction false} AcquireLabels(c: Cache, held: multiset<Ref>, refs: seq<Ref>, slots: Slots)
    requires Consistent(c, held) && AllExist(c, refs) && LabelsOk(c, slots)
    ensures LabelsOk(AcquireMany(c, held, refs), slots)
    decreases |refs|
  {
    if refs != [] {
      AcquireOk(c, held, refs[0]);
      var e := Acquire(c, refs[0]);
      assert LabelOk(c, slots, refs[0]);
      LabelsFrom(c, e, refs[0], slots, slots);
      AcquireLabels(e, held + multiset{refs[0]}, refs[1..], slots);
    }
  }

  lemma {:induction false} ReleaseLabel(c: Cache, held: multiset<Ref>, r: Ref, slots: Slots)
    requires Consistent(c, held) && r in held && LabelsOk(c, slots) && Exists(c, r) && Refs(c, r) > 0
    ensures LabelsOk(Release(c, r), slots)
  {
    ReleaseOk(c, held, r);
    assert LabelOk(c, slots, r);
    LabelsFrom(c, Release(c, r), r, slots, slots);
  }

  lemma {:induction false} ReleaseLabels(c: Cache, held: multiset<Ref>, refs: seq<Ref>, slots: Slots)
    requires Consistent(c, held) && multiset(refs) <= held && LabelsOk(c, slots)
    ensures LabelsOk(ReleaseMany(c, held, refs), slots)
    decreases |refs|
  {
    if refs != [] {
      assert refs == [refs[0]] + refs[1..];
      assert multiset(refs) == multiset{refs[0]} + multiset(refs[1..]);
      ReleaseOk(c, held, refs[0]);
      ReleaseLabel(c, held, refs[0], slots);
      ReleaseLabels(Release(c, refs[0]), held - multiset{refs[0]}, refs[1..], slots);
    }
  }

  /** Publishing under the slot's key. */
  lemma {:induction false} RegisterLabels(c: Cache, held: multiset<Ref>, refs: seq<Ref>, keys: seq<Key>, slots: Slots)
    requires Consistent(c, held) && AllHeld(held, refs) && LabelsOk(c, slots)
    requires Matches(slots, refs, keys)
    ensures LabelsOk(RegisterMany(c, held, refs, keys), slots)
    decreases |refs|
  {
    if refs != [] && keys != [] {
      RegisterOk(c, held, refs[0], keys[0]);
      var e := Register(c, refs[0], keys[0]);
      LabelsFrom(c, e, refs[0], slots, slots);
      RegisterLabels(e, held, refs[1..], keys[1..], slots);
    }
  }

  lemma {:induction false} MarkLabels(c: Cache, held: multiset<Ref>, refs: seq<Ref>, keys: seq<Key>, slots: Slots)
    requires Consistent(c, held) && AllHeld(held, refs) && AllPrivate(c, refs) && LabelsOk(c, slots)
    requires Matches(slots, refs, keys)
    ensures LabelsOk(MarkMany(c, held, refs, keys), slots)
    decreases |refs|
  {
    if refs != [] && keys != [] {
      MarkOk(c, held, refs[0], Some(keys[0]), true);
      var e := Mark(c, refs[0], Some(keys[0]), true);
      LabelsFrom(c, e, refs[0], slots, slots);
      PrivateAfter(c, e, refs);
      MarkLabels(e, held, refs[1..], keys[1..], slots);
    }
  }

  lemma {:induction false} NewSlot(slots: Slots, after: Slots, held: multiset<Ref>, refs: seq<Ref>, r: Ref, all: seq<Ref>,
                                   blockSize: nat, prompt: Prompt, base: nat)
    requires RowOk(blockSize, prompt, refs, base, slots) && (held + multiset(refs))[r] == 0 && all == refs + [r]
    requires after == slots[r := PlaceKey(blockSize, prompt, base + |refs|)]
    ensures RowOk(blockSize, prompt, all, base, after) && SameSlots(slots, after, held)
  {
    forall i | 0 <= i < |all| ensures SlotOf(after, all[i]) == PlaceKey(blockSize, prompt, base + i) {
      if i < |refs| { assert refs[i] in multiset(refs) && all[i] == refs[i]; }
    }
  }

  /** Fresh blocks take the slots of the places they are handed out for. */
  lemma {:induction false} TakeLabels(c: Cache, held: multiset<Ref>, d: Device, n: nat, slots: Slots,
                                      blockSize: nat, prompt: Prompt, base: nat)
    returns (after: Slots)
    requires Consistent(c, held) && LabelsOk(c, slots)
    ensures var t := TakeMany(c, held, d, n);
      LabelsOk(t.cache, after) && RowOk(blockSize, prompt, t.refs, base, after) && SameSlots(slots, after, held)
    decreases n
  {
    hide Consistent, TakeMany, PlaceKey, LabelsOk, OnlyRef;
    after := slots;
    if n == 0 {
      TakeNone(c, held, d);
    } else {
      var t, u := TakeMany(c, held, d, n - 1), TakeMany(c, held, d, n);
      after := TakeLabels(c, held, d, n - 1, slots, blockSize, prompt, base);
      var r := TakeNext(c, held, d, n, t, u);
      if u.ok {
        var next := after[r := PlaceKey(blockSize, prompt, base + |t.refs|)];
        NewSlot(after, next, held, t.refs, r, u.refs, blockSize, prompt, base);
        LabelsFrom(t.cache, u.cache, r, after, next);
        after := next;
      }
    }
  }

  lemma {:induction false} CopySlot(slots: Slots, after: Slots, held: multiset<Ref>, sources: seq<Ref>, refs: seq<Ref>, r: Ref, all: seq<Ref>)
    requires |refs| < |sources| && (forall i :: 0 <= i < |refs| ==> SlotOf(slots, refs[i]) == SlotOf(slots, sources[i]))
    requires AllHeld(held, sources) && (held + multiset(refs))[r] == 0 && all == refs + [r]
    requires after == slots[r := SlotOf(slots, sources[|refs|])]
    ensures forall i :: 0 <= i < |all| ==> SlotOf(after, all[i]) == SlotOf(after, sources[i])
    ensures SameSlots(slots, after, held)
  {
    forall i | 0 <= i < |all| ensures SlotOf(after, all[i]) == SlotOf(after, sources[i]) {
      assert sources[i] in held;
      if i < |refs| { assert refs[i] in multiset(refs) && all[i] == refs[i]; }
    }
  }

  /** Copies take the slots of the blocks they are copied from. */
  lemma {:induction false} CopyLabels(c: Cache, held: multiset<Ref>, sources: seq<Ref>, d: Device, n: nat, slots: Slots)
    returns (after: Slots)
    requires Consistent(c, held) && LabelsOk(c, slots) && n <= |sources| && AllHeld(held, sources)
    ensures var t := CopyMany(c, held, sources, d, n);
      && LabelsOk(t.cache, after) && SameSlots(slots, after, held)
      && forall i :: 0 <= i < |t.refs| ==> SlotOf(after, t.refs[i]) == SlotOf(after, sources[i])
    decreases n
  {
    hide Consistent, PoolOk, Allocate, LabelsOk, OnlyRef;
    after := slots;
    if n > 0 {
      var t := CopyMany(c, held, sources, d, n - 1);
      after := CopyLabels(c, held, sources, d, n - 1, slots);
      if t.ok && NumFree(PoolOf(t.cache, d)) > 0 {
        var now := held + multiset(t.refs);
        AllocateFresh(t.cache, now, d);
        var (e, r) := Allocate(t.cache, d);
        var next := after[r := SlotOf(after, sources[n - 1])];
        CopySlot(after, next, held, sources, t.refs, r, t.refs + [r]);
        LabelsFrom(t.cache, e, r, after, next);
        CopyMark(e, now + multiset{r}, r, sources[n - 1], next);
        assert held + multiset(t.refs + [r]) == now + multiset{r};
        after := next;
      }
    }
  }

  lemma {:induction false} CopyMark(c: Cache, held: multiset<Ref>, r: Ref, source: Ref, slots: Slots)
    requires Consistent(c, held) && r in held && !BlockAt(c, r).cached && LabelsOk(c, slots) && Exists(c, r)
    requires SlotOf(slots, r) == SlotOf(slots, source)
    ensures LabelsOk(Mark(c, r, BlockAt(c, source).hash, BlockAt(c, source).full), slots)
  {
    MarkOk(c, held, r, BlockAt(c, source).hash, BlockAt(c, source).full);
    assert LabelOk(c, slots, source);
    LabelsFrom(c, Mark(c, r, BlockAt(c, source).hash, BlockAt(c, source).full), r, slots, slots);
  }

  // ----- hits -----

  lemma {:induction false} HitAt(c: Cache, keys: seq<Key>, n: nat, i: nat)
    requires n <= |keys| && i < |Hits(c, keys, n)|
    ensures IsHit(c, keys[i]) && Hits(c, keys, n)[i] == c.index[keys[i]]
    decreases n
  {
    if i < |Hits(c, keys, n - 1)| { HitAt(c, keys, n - 1, i); }
  }

  /** The run is maximal: the key behind the last hit is not indexed as a GPU block. */
  lemma {:induction false} HitsMaximal(c: Cache, keys: seq<Key>, n: nat)
    requires n <= |keys| && |Hits(c, keys, n)| < n
    ensures !IsHit(c, keys[|Hits(c, keys, n)|])
    decreases n
  {
    if |Hits(c, keys, n - 1)| < n - 1 { HitsMaximal(c, keys, n - 1); }
  }

  /** A hit stands for exactly the place it is used at. */
  lemma {:induction false} HitsRow(m: Manager, req: Req, slots: Slots)
    requires Inv(m) && LabelsOk(m.cache, slots)
    ensures RowOk(m.blockSize, req.prompt, PlanReuse(m, req), 0, slots)
  {
    var keys := RequestKeys(m.blockSize, req.prompt);
    var hits := PlanReuse(m, req);
    forall i | 0 <= i < |hits| ensures SlotOf(slots, hits[i]) == PlaceKey(m.blockSize, req.prompt, 0 + i) {
      HitAt(m.cache, keys, |keys|, i);
      assert Sound(m.cache, keys[i]) && LabelOk(m.cache, slots, hits[i]);
      InputPlace(m.blockSize, req.prompt, i);
    }
  }

  // ----- manager operations keep labels -----

  lemma {:induction false} RowKept(m: Manager, prompts: RequestId -> Prompt, slots: Slots, after: Slots, id: RequestId)
    requires HolderOk(m, prompts, slots, id) && SameSlots(slots, after, Held(m))
    ensures HolderOk(m, prompts, after, id)
  {
    TableHeld(m, id);
  }

  /** All rows but one stay; the remaining one is right. */
  lemma {:induction false} OneRow(m: Manager, n: Manager, prompts: RequestId -> Prompt, slots: Slots, after: Slots, id: RequestId)
    requires Labelled(m, prompts, slots) && SameSlots(slots, after, Held(m)) && n.blockSize == m.blockSize
    requires LabelsOk(n.cache, after) && HolderOk(n, prompts, after, id) && KeysOk(n, prompts, id)
    requires forall other :: other != id ==> Table(n, other) == Table(m, other) && InputKeys(n, other) == InputKeys(m, other)
    ensures Labelled(n, prompts, after)
  {
    forall other ensures HolderOk(n, prompts, after, other) && KeysOk(n, prompts, other) {
      if other != id {
        assert HolderOk(m, prompts, slots, other) && KeysOk(m, prompts, other);
        RowKept(m, prompts, slots, after, other);
        assert Table(n, other) == Table(m, other) && InputKeys(n, other) == InputKeys(m, other);
      }
    }
  }

  /** No row changed. */
  lemma {:induction false} SameRows(m: Manager, n: Manager, prompts: RequestId -> Prompt, slots: Slots, after: Slots)
    requires Labelled(m, prompts, slots) && SameSlots(slots, after, Held(m)) && LabelsOk(n.cache, after)
    requires n.blockSize == m.blockSize && n.table == m.table && n.keys == m.keys
    ensures Labelled(n, prompts, after)
  {
    forall id ensures HolderOk(n, prompts, after, id) && KeysOk(n, prompts, id) {
      assert HolderOk(m, prompts, slots, id) && KeysOk(m, prompts, id);
      RowKept(m, prompts, slots, after, id);
    }
  }

  lemma {:induction false} JoinRows(blockSize: nat, prompt: Prompt, a: seq<Ref>, b: seq<Ref>, all: seq<Ref>, slots: Slots)
    requires RowOk(blockSize, prompt, a, 0, slots) && RowOk(blockSize, prompt, b, |a|, slots) && all == a + b
    ensures RowOk(blockSize, prompt, all, 0, slots)
  {
    forall i | 0 <= i < |all| ensures SlotOf(slots, all[i]) == PlaceKey(blockSize, prompt, 0 + i) {
      if i >= |a| { assert all[i] == b[i - |a|]; }
    }
  }

  lemma {:induction false} GatherLabels(m: Manager, req: Req, slots: Slots) returns (after: Slots)
    requires Inv(m) && LabelsOk(m.cache, slots)
    ensures var hits, t := PlanReuse(m, req), Gather(m, req);
      && LabelsOk(t.cache, after) && SameSlots(slots, after, Held(m))
      && RowOk(m.blockSize, req.prompt, hits + t.refs, 0, after) && RowOk(m.blockSize, req.prompt, t.refs, |hits|, after)
  {
    var keys := RequestKeys(m.blockSize, req.prompt);
    var hits := PlanReuse(m, req);
    HitsExist(m.cache, Held(m), keys, |keys|);
    HitsRow(m, req, slots);
    AcquireLabels(m.cache, Held(m), hits, slots);
    hide Consistent, PlaceKey;
    after := TakeLabels(AcquiredHits(m, req), Held(m) + multiset(hits), GPU, Max(0, Misses(m, req)), slots, m.blockSize, req.prompt, |hits|);
    forall i | 0 <= i < |hits| ensures SlotOf(after, hits[i]) == SlotOf(slots, hits[i]) { assert hits[i] in multiset(hits); }
    JoinRows(m.blockSize, req.prompt, hits, Gather(m, req).refs, hits + Gather(m, req).refs, after);
  }

  /** Pending labels name the keys of the places behind the hits. */
  lemma {:induction false} PendingKeys(m: Manager, req: Req, refs: seq<Ref>, base: nat, slots: Slots)
    requires RowOk(m.blockSize, req.prompt, refs, base, slots) && base <= |RequestKeys(m.blockSize, req.prompt)|
    ensures Matches(slots, refs, RequestKeys(m.blockSize, req.prompt)[base..])
  {
    var all := RequestKeys(m.blockSize, req.prompt);
    forall k | 0 <= k < |refs| && k < |all[base..]| ensures SlotOf(slots, refs[k]) == Some(all[base..][k]) {
      InputPlace(m.blockSize, req.prompt, base + k);
    }
  }

  lemma {:induction false} AdmittedLabels(m: Manager, req: Req, prompts: RequestId -> Prompt, slots: Slots, after: Slots)
    requires Inv(m) && Labelled(m, prompts, slots) && req.prompt == prompts(req.id)
    requires Table(m, req.id) == [] && Gather(m, req).ok
    requires LabelsOk(Gather(m, req).cache, after) && SameSlots(slots, after, Held(m))
    requires RowOk(m.blockSize, req.prompt, PlanReuse(m, req) + Gather(m, req).refs, 0, after)
    requires RowOk(m.blockSize, req.prompt, Gather(m, req).refs, |PlanReuse(m, req)|, after)
    ensures Labelled(AllocateOp(m, req).after, prompts, after)
  {
    hide Consistent, PlaceKey, PlanReuse, RequestKeys, Gather;
    var hits, t := PlanReuse(m, req), Gather(m, req);
    PendingReady(m, req);
    PendingKeys(m, req, t.refs, |hits|, after);
    MarkLabels(t.cache, Held(m) + multiset(hits + t.refs), t.refs, RequestKeys(m.blockSize, req.prompt)[|hits|..], after);
    OneRow(m, AllocateOp(m, req).after, prompts, slots, after, req.id);
  }

  lemma {:induction false} UndoneLabels(m: Manager, req: Req, prompts: RequestId -> Prompt, slots: Slots, after: Slots)
    requires Inv(m) && Labelled(m, prompts, slots)
    requires Table(m, req.id) == [] && !Gather(m, req).ok
    requires LabelsOk(Gather(m, req).cache, after) && SameSlots(slots, after, Held(m))
    ensures Labelled(AllocateOp(m, req).after, prompts, after)
  {
    hide Consistent, PlaceKey, PlanReuse, RequestKeys, Gather, LabelsOk;
    var hits, t := PlanReuse(m, req), Gather(m, req);
    ReleaseLabels(t.cache, Held(m) + multiset(hits + t.refs), Reversed(hits + t.refs), after);
    SameRows(m, AllocateOp(m, req).after, prompts, slots, after);
  }

  lemma {:induction false} AllocateLabels(m: Manager, req: Req, prompts: RequestId -> Prompt, slots: Slots) returns (after: Slots)
    requires Inv(m) && Labelled(m, prompts, slots) && req.prompt == prompts(req.id)
    ensures Labelled(AllocateOp(m, req).after, prompts, after)
  {
    hide Consistent, PlaceKey, PlanReuse, RequestKeys, Gather;
    after := slots;
    if Table(m, req.id) == [] {
      after := GatherLabels(m, req, slots);
      if Gather(m, req).ok {
        AdmittedLabels(m, req, prompts, slots, after);
      } else {
        UndoneLabels(m, req, prompts, slots, after);
      }
    }
  }

  /** Each of the blocks stands for the key at the same position. */
  ghost predicate Matches(slots: Slots, refs: seq<Ref>, keys: seq<Key>) {
    forall k :: 0 <= k < |refs| && k < |keys| ==> SlotOf(slots, refs[k]) == Some(keys[k])
  }

  lemma {:induction false} InputMatches(m: Manager, id: RequestId, prompts: RequestId -> Prompt, slots: Slots)
    requires HolderOk(m, prompts, slots, id) && KeysOk(m, prompts, id)
    ensures Matches(slots, Table(m, id), InputKeys(m, id))
  {
    forall k | 0 <= k < |Table(m, id)| && k < |InputKeys(m, id)| ensures SlotOf(slots, Table(m, id)[k]) == Some(InputKeys(m, id)[k]) {
      InputPlace(m.blockSize, prompts(id), k);
    }
  }

  lemma {:induction false} OutputMatches(m: Manager, req: Req, prompts: RequestId -> Prompt, slots: Slots)
    requires HolderOk(m, prompts, slots, req.id) && req.prompt == prompts(req.id) && PublishesOutput(m.blockSize, req.prompt)
    ensures Matches(slots, OutputBlocks(m, req), OutputKeys(m.blockSize, req.prompt))
  {
    var start := FullInputBlocks(m.blockSize, req.prompt);
    var refs, keys := OutputBlocks(m, req), OutputKeys(m.blockSize, req.prompt);
    forall k | 0 <= k < |refs| && k < |keys| ensures SlotOf(slots, refs[k]) == Some(keys[k]) {
      OutputPlace(m.blockSize, req.prompt, k);
      assert refs[k] == Table(m, req.id)[start + k];
    }
  }

  lemma {:induction false} CommitInputLabels(m: Manager, id: RequestId, prompts: RequestId -> Prompt, slots: Slots)
    requires Inv(m) && Labelled(m, prompts, slots)
    ensures Labelled(CommitInputOp(m, id), prompts, slots)
  {
    hide Consistent, PlaceKey, LabelsOk, RegisterMany, RowOk;
    if id !in m.committed {
      assert HolderOk(m, prompts, slots, id) && KeysOk(m, prompts, id);
      TableHeld(m, id);
      InputMatches(m, id, prompts, slots);
      RegisterLabels(m.cache, Held(m), Table(m, id), InputKeys(m, id), slots);
      SameRows(m, CommitInputOp(m, id), prompts, slots, slots);
    }
  }

  lemma {:induction false} RegisterOutputLabels(m: Manager, req: Req, prompts: RequestId -> Prompt, slots: Slots)
    requires Inv(m) && Labelled(m, prompts, slots) && req.prompt == prompts(req.id)
    ensures Labelled(RegisterOutputOp(m, req), prompts, slots)
  {
    hide Consistent, PlaceKey, LabelsOk, RegisterMany, RowOk, OutputKeys, OutputBlocks;
    if PublishesOutput(m.blockSize, req.prompt) {
      assert HolderOk(m, prompts, slots, req.id) && KeysOk(m, prompts, req.id);
      OutputHeld(m, req);
      OutputMatches(m, req, prompts, slots);
      RegisterLabels(m.cache, Held(m), OutputBlocks(m, req), OutputKeys(m.blockSize, req.prompt), slots);
      SameRows(m, RegisterOutputOp(m, req), prompts, slots, slots);
    }
  }

  lemma {:induction false} SameKeys(m: Manager, n: Manager, prompts: RequestId -> Prompt, id: RequestId)
    requires KeysOk(m, prompts, id) && n.keys == m.keys && n.blockSize == m.blockSize
    ensures KeysOk(n, prompts, id)
  {
  }

  lemma {:induction false} EmptyRow(blockSize: nat, prompt: Prompt, slots: Slots)
    ensures RowOk(blockSize, prompt, [], 0, slots)
  {
  }

  lemma {:induction false} ReleaseOpLabels(m: Manager, id: RequestId, prompts: RequestId -> Prompt, slots: Slots)
    requires Inv(m) && Labelled(m, prompts, slots)
    ensures Labelled(ReleaseOp(m, id), prompts, slots)
  {
    hide Consistent, PlaceKey, LabelsOk, ReleaseMany, RowOk, KeysOk;
    TableHeld(m, id);
    assert KeysOk(m, prompts, id);
    ReleaseLabels(m.cache, Held(m), Table(m, id), slots);
    EmptyRow(m.blockSize, prompts(id), slots);
    var n := ReleaseOp(m, id);
    SameKeys(m, n, prompts, id);
    assert Table(n, id) == [];
    OneRow(m, n, prompts, slots, slots, id);
  }

  lemma {:induction false} FreeLabels(m: Manager, req: Req, prompts: RequestId -> Prompt, slots: Slots)
    requires Inv(m) && Labelled(m, prompts, slots) && req.prompt == prompts(req.id)
    ensures Labelled(FreeOp(m, req), prompts, slots)
  {
    hide Labelled;
    CommitInputKeeps(m, req.id);
    CommitInputLabels(m, req.id, prompts, slots);
    var a := CommitInputOp(m, req.id);
    RegisterOutputKeeps(a, req);
    RegisterOutputLabels(a, req, prompts, slots);
    ReleaseOpLabels(RegisterOutputOp(a, req), req.id, prompts, slots);
  }

  lemma {:induction false} AppendLabels(m: Manager, req: Req, prompts: RequestId -> Prompt, slots: Slots) returns (after: Slots)
    requires Inv(m) && Labelled(m, prompts, slots) && req.prompt == prompts(req.id)
    ensures Labelled(AppendOp(m, req).after, prompts, after)
  {
    hide Consistent, PoolOk, Allocate, PlaceKey, LabelsOk, OnlyRef, RowOk, SameSlots, Held;
    after := slots;
    ConsistentPool(m.cache, Held(m), GPU);
    if |Table(m, req.id)| < req.logicalBlocks && NumFree(m.cache.gpu) > 0 {
      var refs := Table(m, req.id);
      AllocateFresh(m.cache, Held(m), GPU);
      TableHeld(m, req.id);
      var (e, r) := Allocate(m.cache, GPU);
      after := slots[r := PlaceKey(m.blockSize, req.prompt, |refs|)];
      assert HolderOk(m, prompts, slots, req.id) && KeysOk(m, prompts, req.id);
      LabelsFrom(m.cache, e, r, slots, after);
      AppendedRow(slots, after, Held(m), refs, r, refs + [r], m.blockSize, req.prompt);
      OneRow(m, AppendOp(m, req).after, prompts, slots, after, req.id);
    }
  }

  lemma {:induction false} AppendedRow(slots: Slots, after: Slots, held: multiset<Ref>, refs: seq<Ref>, r: Ref, all: seq<Ref>,
                                       blockSize: nat, prompt: Prompt)
    requires RowOk(blockSize, prompt, refs, 0, slots) && AllHeld(held, refs) && held[r] == 0 && all == refs + [r]
    requires after == slots[r := PlaceKey(blockSize, prompt, |refs|)]
    ensures RowOk(blockSize, prompt, all, 0, after) && SameSlots(slots, after, held)
  {
    forall i | 0 <= i < |all| ensures SlotOf(after, all[i]) == PlaceKey(blockSize, prompt, 0 + i) {
      if i < |refs| { assert refs[i] in held && all[i] == refs[i]; }
    }
  }

  lemma {:induction false} RollbackLabels(m: Manager, id: RequestId, prompts: RequestId -> Prompt, slots: Slots)
    requires Inv(m) && Labelled(m, prompts, slots)
    ensures Labelled(RollbackOp(m, id), prompts, slots)
  {
    hide Consistent, PlaceKey, LabelsOk, OnlyRef;
    var refs := Table(m, id);
    if refs != [] {
      LastHeld(m, id);
      ReleaseOk(m.cache, Held(m), refs[|refs| - 1]);
      ReleaseLabel(m.cache, Held(m), refs[|refs| - 1], slots);
      assert HolderOk(m, prompts, slots, id) && KeysOk(m, prompts, id);
      OneRow(m, RollbackOp(m, id), prompts, slots, slots, id);
    }
  }

  /** The first `n` places of two prompts have the same keys. */
  ghost predicate SamePlaces(blockSize: nat, a: Prompt, b: Prompt, n: nat) {
    forall i :: 0 <= i < n ==> PlaceKey(blockSize, a, i) == PlaceKey(blockSize, b, i)
  }

  lemma {:induction false} ForkLabels(m: Manager, parent: RequestId, child: RequestId, prompts: RequestId -> Prompt, slots: Slots)
    requires Inv(m) && Labelled(m, prompts, slots)
    requires SamePlaces(m.blockSize, prompts(parent), prompts(child), |Table(m, parent)|)
    ensures Labelled(ForkOp(m, parent, child).after, prompts, slots)
  {
    hide Consistent, PlaceKey, LabelsOk, AcquireMany;
    if Table(m, child) == [] && Table(m, parent) != [] {
      var refs := Table(m, parent);
      TableHeld(m, parent);
      HeldExist(m.cache, Held(m), refs);
      AcquireLabels(m.cache, Held(m), refs, slots);
      assert HolderOk(m, prompts, slots, parent) && KeysOk(m, prompts, child);
      OneRow(m, ForkOp(m, parent, child).after, prompts, slots, slots, child);
    }
  }

  lemma {:induction false} CopiedRow(blockSize: nat, prompt: Prompt, sources: seq<Ref>, refs: seq<Ref>, slots: Slots)
    requires RowOk(blockSize, prompt, sources, 0, slots) && |refs| <= |sources|
    requires forall i :: 0 <= i < |refs| ==> SlotOf(slots, refs[i]) == SlotOf(slots, sources[i])
    ensures RowOk(blockSize, prompt, refs, 0, slots)
  {
    forall i | 0 <= i < |refs| ensures SlotOf(slots, refs[i]) == PlaceKey(blockSize, prompt, 0 + i) {
      assert SlotOf(slots, sources[i]) == PlaceKey(blockSize, prompt, 0 + i);
    }
  }

  lemma {:induction false} SwappedTable(m: Manager, id: RequestId, source: Device, target: Device, n: Manager, t: Taking)
    requires Inv(m) && n == SwapOp(m, id, source, target).after
    requires AllOn(Table(m, id), source) && NumFree(PoolOf(m.cache, target)) >= |Table(m, id)|
    requires t == CopyMany(m.cache, Held(m), Table(m, id), target, |Table(m, id)|)
    ensures multiset(Table(m, id)) <= Held(m) + multiset(t.refs)
    ensures n.cache == ReleaseMany(t.cache, Held(m) + multiset(t.refs), Table(m, id)) && n.blockSize == m.blockSize
    ensures Table(n, id) == t.refs && n.keys == m.keys
    ensures forall other :: other != id ==> Table(n, other) == Table(m, other)
  {
    hide Consistent, CopyMany, ReleaseMany;
    TableHeld(m, id);
  }

  lemma {:induction false} SwapLabels(m: Manager, id: RequestId, source: Device, target: Device, prompts: RequestId -> Prompt, slots: Slots)
    returns (after: Slots)
    requires Inv(m) && Labelled(m, prompts, slots)
    ensures Labelled(SwapOp(m, id, source, target).after, prompts, after)
  {
    hide Consistent, PlaceKey, LabelsOk, CopyMany, ReleaseMany;
    after := slots;
    var refs := Table(m, id);
    if AllOn(refs, source) && NumFree(PoolOf(m.cache, target)) >= |refs| {
      assert HolderOk(m, prompts, slots, id) && KeysOk(m, prompts, id);
      TableHeld(m, id);
      after := CopyLabels(m.cache, Held(m), refs, target, |refs|, slots);
      var t, n := CopyMany(m.cache, Held(m), refs, target, |refs|), SwapOp(m, id, source, target).after;
      SwappedTable(m, id, source, target, n, t);
      hide SwapOp;
      RowKept(m, prompts, slots, after, id);
      CopiedRow(m.blockSize, prompts(id), refs, t.refs, after);
      ReleaseLabels(t.cache, Held(m) + multiset(t.refs), refs, after);
      OneRow(m, n, prompts, slots, after, id);
    }
  }

  lemma {:induction false} ReserveLabels(m: Manager, n: int, prompts: RequestId -> Prompt, slots: Slots) returns (after: Slots)
    requires Inv(m) && Labelled(m, prompts, slots)
    ensures Labelled(ReserveOp(m, n).after, prompts, after)
  {
    hide Consistent, PlaceKey, LabelsOk, TakeMany, ReleaseMany, RowOk, HolderOk;
    var t := TakeMany(m.cache, Held(m), GPU, Max(0, n));
    after := TakeLabels(m.cache, Held(m), GPU, Max(0, n), slots, m.blockSize, prompts(0), 0);
    if !t.ok { ReleaseLabels(t.cache, Held(m) + multiset(t.refs), t.refs, after); }
    SameRows(m, ReserveOp(m, n).after, prompts, slots, after);
  }

  lemma {:induction false} ReleaseReservedLabels(m: Manager, count: Option<int>, prompts: RequestId -> Prompt, slots: Slots)
    requires Inv(m) && Labelled(m, prompts, slots)
    ensures Labelled(ReleaseReservedOp(m, count).after, prompts, slots)
  {
    hide Consistent, PlaceKey, LabelsOk, ReleaseMany;
    var n := if count.Some? then count.value else |m.reserved|;
    if 0 <= n <= |m.reserved| {
      assert m.reserved == m.reserved[..n] + m.reserved[n..];
      assert multiset(m.reserved[..n]) <= Held(m);
      ReleaseLabels(m.cache, Held(m), m.reserved[..n], slots);
      SameRows(m, ReleaseReservedOp(m, count).after, prompts, slots, slots);
    }
  }
}
