/** Batches, lookups and whole runs of the store. */
module MooncakeRuns {
  import opened Common
  import opened OffloadTiers
  import opened MooncakeModel
  import opened MooncakeSafety

  // ----- large batches without an offload tier -----

  /** The first occurrences of the first `n` keys. */
  function Firsts(keys: seq<string>, n: nat): (firsts: seq<string>)
    requires n <= |keys|
  {
    if n == 0 then []
    else
      var earlier := Firsts(keys, n - 1);
      if keys[n - 1] in earlier then earlier else earlier + [keys[n - 1]]
  }

  lemma {:induction false} FirstsOnce(keys: seq<string>, n: nat)
    requires n <= |keys|
    ensures NoRepeats(Firsts(keys, n)) && (NoRepeats(keys) ==> Firsts(keys, n) == keys[..n])
    decreases n
  {
    if n > 0 {
      FirstsOnce(keys, n - 1);
      assert keys[..n] == keys[..n - 1] + [keys[n - 1]];
    }
  }

  function FreshOf(objects: map<string, Object>, keys: seq<string>): seq<string> {
    if keys == [] then []
    else (if keys[0] in objects then [] else [keys[0]]) + FreshOf(objects, keys[1..])
  }

  function Installed(objects: map<string, Object>, keys: seq<string>, o: Object): map<string, Object>
    decreases |keys|
  {
    if keys == [] then objects
    else Installed(if keys[0] in objects then objects else objects[keys[0] := o], keys[1..], o)
  }

  function Relisted(lru: seq<string>, keys: seq<string>): seq<string>
    decreases |keys|
  {
    if keys == [] then lru else Relisted(Without(lru, keys[0]) + [keys[0]], keys[1..])
  }

  function NewObject(s: Store, now: real, delay: real): Object {
    Object(s.config.blockBytes, false, false, now + delay, 0.0)
  }

  function FreshBytes(s: Store, keys: seq<string>): nat {
    MulNonNegative(|FreshOf(s.objects, keys)|, s.config.blockBytes);
    |FreshOf(s.objects, keys)| * s.config.blockBytes
  }

  /** All at once: the new objects, their bytes, and every key as most recently used in turn. */
  function Bulk(s: Store, keys: seq<string>, now: real, delay: real): Store {
    s.(objects := Installed(s.objects, keys, NewObject(s, now, delay)), used := s.used + FreshBytes(s, keys), lru := Relisted(s.lru, keys))
  }

  lemma {:induction false} FreshElsewhere(objects: map<string, Object>, keys: seq<string>, key: string, o: Object)
    requires key !in keys
    ensures FreshOf(objects[key := o], keys) == FreshOf(objects, keys)
    decreases |keys|
  {
    if keys != [] { FreshElsewhere(objects, keys[1..], key, o); }
  }

  lemma {:induction false} OneMoreBlock(n: nat, width: nat)
    ensures (n + 1) * width == n * width + width
  {
  }

  /** With room for all, putting one key needs no eviction. */
  lemma {:induction false} PutOneFits(s: Store, key: string, now: real, delay: real)
    requires Sound(s, now) && s.tier.None? && (key !in s.objects ==> s.used + s.config.blockBytes <= s.config.memoryCapacity)
    ensures var p := PutOne(s, key, now, delay);
      && p.latency == 0.0
      && p.store == s.(objects := if key in s.objects then s.objects else s.objects[key := NewObject(s, now, delay)],
                       used := if key in s.objects then s.used else s.used + s.config.blockBytes,
                       lru := Without(s.lru, key) + [key])
  {
    hide Sound;
    SoundKey(s, key, now);
    if key !in s.objects { WithoutAbsent(s.lru, key); SomeBytes(s, now); }
  }

  lemma {:induction false} SoundKey(s: Store, key: string, now: real)
    requires Sound(s, now) && s.tier.None?
    ensures key in s.lru <==> key in s.objects
    ensures key in s.objects ==> !s.objects[key].offloaded
  {
    assert KeyOk(s, key);
  }

  lemma {:induction false} SomeBytes(s: Store, now: real)
    requires Sound(s, now)
    ensures s.used >= 0
  {
  }

  lemma {:induction false} FreshFirst(s: Store, keys: seq<string>)
    requires keys != []
    ensures FreshBytes(s, keys) == FreshBytes(s, keys[1..]) + (if keys[0] in s.objects then 0 else s.config.blockBytes)
  {
    var n := |FreshOf(s.objects, keys[1..])|;
    assert |FreshOf(s.objects, keys)| == n + (if keys[0] in s.objects then 0 else 1);
    OneMoreBlock(n, s.config.blockBytes);
  }

  lemma {:induction false} FreshAfter(s: Store, v: Store, keys: seq<string>, key: string, o: Object)
    requires key !in keys && v.config == s.config && v.objects == if key in s.objects then s.objects else s.objects[key := o]
    ensures FreshBytes(v, keys) == FreshBytes(s, keys)
  {
    if key !in s.objects { FreshElsewhere(s.objects, keys, key, o); }
  }

  /** The fast path for large batches does what putting one key after the other does. */
  lemma {:induction false} BulkIsEach(s: Store, keys: seq<string>, now: real, delay: real)
    requires Sound(s, now) && s.tier.None? && NoRepeats(keys)
    requires s.used + FreshBytes(s, keys) <= s.config.memoryCapacity
    ensures PutEach(s, keys, now, delay) == Put(Bulk(s, keys, now, delay), 0.0)
    decreases |keys|
  {
    hide Sound, PutOne;
    if keys == [] {
      assert FreshOf(s.objects, keys) == [];
      assert Bulk(s, keys, now, delay) == s;
    } else {
      var key, rest := keys[0], keys[1..];
      assert keys == [key] + rest;
      assert key !in rest;
      FreshFirst(s, keys);
      PutOneFits(s, key, now, delay);
      PutOneOk(s, key, now, delay);
      var v := PutOne(s, key, now, delay).store;
      FreshAfter(s, v, rest, key, NewObject(s, now, delay));
      BulkIsEach(v, rest, now, delay);
      assert delay + 0.0 == delay;
      assert Bulk(v, rest, now, delay) == Bulk(s, keys, now, delay);
    }
  }

  // ----- the whole put -----

  /** Only batches of more than this many blocks take the fast path. */
  const BATCH: nat := 64

  function Batch(keys: seq<string>, blocks: Option<nat>): seq<string> {
    if blocks.Some? && blocks.value < |keys| then keys[..blocks.value] else keys
  }

  predicate TakesFastPath(s: Store, keys: seq<string>, blocks: Option<nat>) {
    var n := if blocks.Some? then blocks.value else |keys|;
    var batch := Batch(keys, blocks);
    && s.tier.None? && n > BATCH && s.config.lruPolicy && n * s.config.blockBytes <= s.config.memoryCapacity
    && s.used + FreshBytes(s, Firsts(batch, |batch|)) <= s.config.memoryCapacity
  }

  /** `put_with_timing`; `never` is the admission policy that rejects everything. */
  ghost function PutAll(s: Store, keys: seq<string>, blocks: Option<nat>, now: real, delay: real, never: bool): Put
    requires Sound(s, now)
  {
    var batch := Batch(keys, blocks);
    if never || keys == [] then Put(s, 0.0)
    else if TakesFastPath(s, keys, blocks) then Put(Bulk(s, Firsts(batch, |batch|), now, delay), 0.0)
    else PutEach(s, batch, now, delay)
  }

  lemma {:induction false} PutAllOk(s: Store, keys: seq<string>, blocks: Option<nat>, now: real, delay: real, never: bool)
    requires Sound(s, now)
    ensures var v := PutAll(s, keys, blocks, now, delay, never).store;
      Sound(v, now) && Safe(s, v, now) && v.config == s.config && (v.tier.Some? <==> s.tier.Some?)
  {
    hide Sound, Safe, PutEach, Bulk, Firsts, FreshBytes;
    var batch := Batch(keys, blocks);
    SafeSame(s, now);
    PutEachOk(s, batch, now, delay);
    if TakesFastPath(s, keys, blocks) {
      var firsts := Firsts(batch, |batch|);
      FirstsOnce(batch, |batch|);
      BulkIsEach(s, firsts, now, delay);
      PutEachOk(s, firsts, now, delay);
    }
  }

  /** A batch without repeated keys ends up the same on either path. */
  lemma {:induction false} FastPathAgrees(s: Store, keys: seq<string>, blocks: Option<nat>, now: real, delay: real)
    requires Sound(s, now) && keys != [] && NoRepeats(Batch(keys, blocks))
    ensures PutAll(s, keys, blocks, now, delay, false) == PutEach(s, Batch(keys, blocks), now, delay)
  {
    hide Sound, PutEach, Bulk, Firsts, FreshBytes;
    var batch := Batch(keys, blocks);
    FirstsOnce(batch, |batch|);
    assert batch[..|batch|] == batch;
    if TakesFastPath(s, keys, blocks) { BulkIsEach(s, batch, now, delay); }
  }

  // ----- looking up -----

  /** `lookup`: how many leading keys have a ready object that its tier really holds. */
  function Hits(s: Store, keys: seq<string>, now: real, i: nat): (n: nat)
    requires i <= |keys|
    decreases |keys| - i
  {
    if i == |keys| || keys[i] !in s.objects || s.objects[keys[i]].ready > now then i
    else if s.objects[keys[i]].offloaded && s.tier.Some? && keys[i] !in s.tier.value.blocks then i
    else Hits(s, keys, now, i + 1)
  }

  predicate IsReady(s: Store, key: string, now: real) {
    key in s.objects && s.objects[key].ready <= now
  }

  /** The hits are the longest leading run of ready objects, so reading them at once never fails. */
  lemma {:induction false} HitsAreReady(s: Store, keys: seq<string>, now: real, i: nat)
    requires Sound(s, now) && i <= |keys|
    ensures var n := Hits(s, keys, now, i);
      && i <= n <= |keys| && (forall j :: i <= j < n ==> IsReady(s, keys[j], now)) && (n < |keys| ==> !IsReady(s, keys[n], now))
    decreases |keys| - i
  {
    if i < |keys| && IsReady(s, keys[i], now) {
      assert KeyOk(s, keys[i]);
      HitsAreReady(s, keys, now, i + 1);
    }
  }

  lemma {:induction false} HitsCanBeRead(s: Store, keys: seq<string>, now: real, delay: real)
    requires Sound(s, now)
    ensures Hits(s, keys, now, 0) <= |keys| && Get(s, keys[..Hits(s, keys, now, 0)], now, delay).ok
  {
    hide Sound, Get, Safe;
    HitsAreReady(s, keys, now, 0);
    GetOk(s, keys[..Hits(s, keys, now, 0)], now, delay);
  }

  // ----- runs -----

  datatype Request =
    | Save(keys: seq<string>, blocks: Option<nat>, at: real, delay: real, never: bool)
    | Load(keys: seq<string>, at: real, delay: real)

  ghost function Served(s: Store, r: Request): Store
    requires Sound(s, r.at)
  {
    match r
    case Save(keys, blocks, at, delay, never) => PutAll(s, keys, blocks, at, delay, never).store
    case Load(keys, at, delay) => Get(s, keys, at, delay).store
  }

  lemma {:induction false} ServedOk(s: Store, r: Request)
    requires Sound(s, r.at)
    ensures Sound(Served(s, r), r.at) && Safe(s, Served(s, r), r.at)
    ensures Served(s, r).config == s.config && (Served(s, r).tier.Some? <==> s.tier.Some?)
  {
    hide Sound, Safe, PutAll, Get;
    match r {
      case Save(keys, blocks, at, delay, never) => PutAllOk(s, keys, blocks, at, delay, never);
      case Load(keys, at, delay) => GetOk(s, keys, at, delay);
    }
  }

  lemma {:induction false} SoundLater(s: Store, now: real, later: real)
    requires Sound(s, now) && now <= later
    ensures Sound(s, later)
  {
    hide StoreOk;
    forall k ensures GuardedAt(s, later, k) { assert GuardedAt(s, now, k); }
  }

  /** Time does not run backwards. */
  ghost predicate Ordered(start: real, requests: seq<Request>)
    decreases |requests|
  {
    requests == [] || (start <= requests[0].at && Ordered(requests[0].at, requests[1..]))
  }

  function EndOf(start: real, requests: seq<Request>): real
    decreases |requests|
  {
    if requests == [] then start else EndOf(requests[0].at, requests[1..])
  }

  ghost function Run(s: Store, start: real, requests: seq<Request>): (v: Store)
    requires Sound(s, start) && Ordered(start, requests)
    decreases |requests|
  {
    if requests == [] then s
    else
      SoundLater(s, start, requests[0].at);
      ServedOk(s, requests[0]);
      Run(Served(s, requests[0]), requests[0].at, requests[1..])
  }

  lemma {:induction false} EndIsLast(start: real, requests: seq<Request>)
    requires Ordered(start, requests)
    ensures start <= EndOf(start, requests)
    decreases |requests|
  {
    if requests != [] { EndIsLast(requests[0].at, requests[1..]); }
  }

  /** The empty store. */
  function NewStore(config: Settings, tier: Option<nat>): Store {
    Store(config, map[], [], 0, if tier.Some? then Some(Tier(tier.value, map[], [], 0, map[])) else None)
  }

  lemma {:induction false} NewStoreOk(config: Settings, tier: Option<nat>, now: real)
    requires tier.Some? ==> tier.value >= 1
    ensures Sound(NewStore(config, tier), now)
  {
  }

  /**
    After any run the memory holds exactly the listed objects within its capacity, the tier exactly the
    persisted ones within its own, and every offloaded object is among them.
   */
  lemma {:induction false} RunsAreConsistent(s: Store, start: real, requests: seq<Request>)
    requires Sound(s, start) && Ordered(start, requests)
    ensures StoreOk(Run(s, start, requests)) && Guarded(Run(s, start, requests), EndOf(start, requests))
    decreases |requests|
  {
    hide StoreOk, Guarded, Served;
    if requests != [] {
      SoundLater(s, start, requests[0].at);
      ServedOk(s, requests[0]);
      RunsAreConsistent(Served(s, requests[0]), requests[0].at, requests[1..]);
    }
  }

  /** Until its write is complete and its reads are over, no run moves or drops an object. */
  lemma {:induction false} BusyStays(s: Store, start: real, requests: seq<Request>, key: string)
    requires Sound(s, start) && Ordered(start, requests) && key in s.objects && Busy(s.objects[key], EndOf(start, requests))
    ensures var v := Run(s, start, requests);
      && key in v.objects && v.objects[key].offloaded == s.objects[key].offloaded
      && Busy(v.objects[key], EndOf(start, requests)) && (s.objects[key].offloaded ==> InTier(v, key))
    decreases |requests|
  {
    hide Sound, Served;
    if requests != [] {
      var r := requests[0];
      SoundLater(s, start, r.at);
      ServedOk(s, r);
      EndIsLast(r.at, requests[1..]);
      var v := Served(s, r);
      assert SafeAt(s, v, r.at, key);
      BusyStays(v, r.at, requests[1..], key);
    } else if s.objects[key].offloaded {
      InItsTier(s, key, start);
    }
  }

  lemma {:induction false} InItsTier(s: Store, key: string, now: real)
    requires Sound(s, now) && key in s.objects && s.objects[key].offloaded
    ensures InTier(s, key)
  {
    assert KeyOk(s, key);
  }

  /** What a successful read returned stays in the tier it was read from until the read is over, whatever happens in between. */
  lemma {:induction false} ReadsAreSafe(s: Store, keys: seq<string>, now: real, delay: real, later: seq<Request>, all: seq<Request>, key: string)
    requires Sound(s, now) && Get(s, keys, now, delay).ok && key in keys
    requires all == [Load(keys, now, delay)] + later && Ordered(now, all)
    requires EndOf(now, later) < now + delay + Get(s, keys, now, delay).latency
    ensures var v := Run(s, now, all);
      && key in s.objects && key in v.objects && v.objects[key].offloaded == s.objects[key].offloaded
      && (s.objects[key].offloaded ==> InTier(v, key))
  {
    hide Sound, Get;
    GetOk(s, keys, now, delay);
    var r := Get(s, keys, now, delay);
    assert Longer(s, r.store, key);
    assert all[0] == Load(keys, now, delay) && all[1..] == later;
    assert Run(s, now, all) == Run(r.store, now, later);
    BusyStays(r.store, now, later, key);
  }
}
