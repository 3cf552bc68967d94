/** The two-tier store: objects in memory, least recently used first, and in an optional offload tier. */
module MooncakeModel {
  import opened Common
  import opened OffloadTiers

  /** `ready` is when the write is complete and `inUse` until when a read lasts. */
  datatype Object = Object(bytes: nat, offloaded: bool, persisted: bool, ready: real, inUse: real)

  /** Reading and writing one block of the offload tier take `readCost` and `writeCost`. */
  datatype Settings = Settings(blockBytes: nat, memoryCapacity: nat, lruPolicy: bool, readCost: real, writeCost: real)

  datatype Store = Store(config: Settings, objects: map<string, Object>, lru: seq<string>, used: int, tier: Option<Tier>)

  // ----- the invariant -----

  function MemoryBytes(objects: map<string, Object>, keys: seq<string>): nat {
    if keys == [] then 0 else (if keys[0] in objects then objects[keys[0]].bytes else 0) + MemoryBytes(objects, keys[1..])
  }

  ghost predicate InTier(s: Store, k: string) {
    s.tier.Some? && k in s.tier.value.blocks
  }

  /** The list holds the memory objects; exactly the persisted objects are in the tier, offloaded ones among them. */
  ghost predicate KeyOk(s: Store, k: string) {
    && (k in s.lru <==> k in s.objects && !s.objects[k].offloaded)
    && (InTier(s, k) <==> k in s.objects && s.objects[k].persisted)
    && (k in s.objects ==> s.objects[k].bytes == s.config.blockBytes && (s.objects[k].offloaded ==> s.objects[k].persisted))
  }

  ghost predicate MemoryOk(s: Store) {
    NoRepeats(s.lru) && s.used == MemoryBytes(s.objects, s.lru) && s.used <= s.config.memoryCapacity
  }

  ghost predicate TiersOk(s: Store) {
    s.tier.Some? ==> TierOk(s.tier.value) && s.tier.value.capacity >= 1
  }

  ghost predicate StoreOk(s: Store) {
    MemoryOk(s) && TiersOk(s) && forall k :: KeyOk(s, k)
  }

  function Pin(s: Store, k: string): real {
    if s.tier.Some? then PinOf(s.tier.value, k) else 0.0
  }

  /** From `now` on the tier protects every offloaded object as long as it is being written or read. */
  ghost predicate GuardedAt(s: Store, now: real, k: string) {
    k in s.objects && s.objects[k].offloaded ==>
      && (s.objects[k].ready <= now || s.objects[k].ready <= Pin(s, k))
      && (s.objects[k].inUse <= now || s.objects[k].inUse <= Pin(s, k))
  }

  ghost predicate Guarded(s: Store, now: real) {
    forall k :: GuardedAt(s, now, k)
  }

  ghost predicate Busy(o: Object, now: real) {
    o.ready > now || o.inUse > now
  }

  /** An object that is being written or read at `now` stays where it is. */
  ghost predicate SafeAt(s: Store, v: Store, now: real, k: string) {
    k in s.objects && Busy(s.objects[k], now) ==>
      && k in v.objects && v.objects[k].offloaded == s.objects[k].offloaded
      && v.objects[k].ready == s.objects[k].ready && v.objects[k].inUse >= s.objects[k].inUse
  }

  ghost predicate Safe(s: Store, v: Store, now: real) {
    forall k :: SafeAt(s, v, now, k)
  }

  /** What every operation at time `now` keeps and respects. */
  ghost predicate Sound(s: Store, now: real) {
    StoreOk(s) && Guarded(s, now)
  }

  // ----- bytes -----

  lemma {:induction false} BytesSame(a: map<string, Object>, b: map<string, Object>, keys: seq<string>)
    requires forall i :: 0 <= i < |keys| ==> (keys[i] in a <==> keys[i] in b) && (keys[i] in a ==> a[keys[i]].bytes == b[keys[i]].bytes)
    ensures MemoryBytes(a, keys) == MemoryBytes(b, keys)
    decreases |keys|
  {
    if keys != [] {
      assert forall i :: 0 <= i < |keys[1..]| ==> keys[1..][i] == keys[i + 1];
      BytesSame(a, b, keys[1..]);
    }
  }

  lemma {:induction false} BytesWithout(objects: map<string, Object>, keys: seq<string>, key: string)
    requires NoRepeats(keys)
    ensures MemoryBytes(objects, Without(keys, key)) ==
            MemoryBytes(objects, keys) - (if key in keys && key in objects then objects[key].bytes else 0)
    decreases |keys|
  {
    if keys != [] {
      var rest := keys[1..];
      assert keys == [keys[0]] + rest;
      assert keys[0] !in rest;
      BytesWithout(objects, rest, key);
      if keys[0] == key {
        WithoutAbsent(rest, key);
      } else {
        assert ([keys[0]] + Without(rest, key))[1..] == Without(rest, key);
      }
    }
  }

  lemma {:induction false} BytesAppend(objects: map<string, Object>, keys: seq<string>, key: string)
    ensures MemoryBytes(objects, keys + [key]) == MemoryBytes(objects, keys) + (if key in objects then objects[key].bytes else 0)
    decreases |keys|
  {
    if keys == [] {
      assert keys + [key] == [key] && [key][1..] == [];
    } else {
      assert (keys + [key])[1..] == keys[1..] + [key];
      BytesAppend(objects, keys[1..], key);
    }
  }

  // ----- touching -----

  /** `_touch`: a memory object becomes the most recently used. */
  function Touch(s: Store, key: string): Store {
    if key in s.objects && !s.objects[key].offloaded && key in s.lru then s.(lru := Without(s.lru, key) + [key]) else s
  }

  lemma {:induction false} TouchOk(s: Store, key: string, now: real)
    requires Sound(s, now)
    ensures Sound(Touch(s, key), now) && Safe(s, Touch(s, key), now) && Touch(s, key).objects == s.objects
  {
    hide MemoryBytes;
    var v := Touch(s, key);
    if v != s {
      WithoutDistinct(s.lru, key);
      forall k ensures k in Without(s.lru, key) <==> k in s.lru && k != key { WithoutMember(s.lru, key, k); }
      BytesWithout(s.objects, s.lru, key);
      BytesAppend(s.objects, Without(s.lru, key), key);
      forall k ensures KeyOk(v, k) && GuardedAt(v, now, k) { assert KeyOk(s, k) && GuardedAt(s, now, k); }
    }
  }

  // ----- the tier's evictions -----

  /** `_record_offload_write`: an evicted key is no longer persisted, and gone if the tier held its only copy. */
  function NoteOne(objects: map<string, Object>, k: string): map<string, Object> {
    if k !in objects then objects
    else if objects[k].offloaded then objects - {k}
    else objects[k := objects[k].(persisted := false)]
  }

  function Noted(objects: map<string, Object>, keys: seq<string>): map<string, Object>
    decreases |keys|
  {
    if keys == [] then objects else Noted(NoteOne(objects, keys[0]), keys[1..])
  }

  lemma {:induction false} NotedAt(objects: map<string, Object>, keys: seq<string>, k: string)
    ensures var after := Noted(objects, keys);
      if k in keys then (k in after <==> k in objects && !objects[k].offloaded) && (k in after ==> after[k] == objects[k].(persisted := false))
      else (k in after <==> k in objects) && (k in after ==> after[k] == objects[k])
    decreases |keys|
  {
    if keys != [] {
      assert keys == [keys[0]] + keys[1..];
      NotedAt(NoteOne(objects, keys[0]), keys[1..], k);
    }
  }

  /** Writes object `key` to the tier; the write is ready `delay` and the cost of writing after `now`. */
  function Offloaded(s: Store, key: string, now: real, delay: real): (Store, bool)
    requires s.tier.Some? && key in s.objects
  {
    var w := Write(s.tier.value, key, 1, now);
    var objects := Noted(s.objects, w.evicted);
    if !w.ok then (s.(objects := objects, tier := Some(w.tier)), false)
    else
      var ready := now + delay + s.config.writeCost;
      (s.(objects := objects[key := s.objects[key].(persisted := true, ready := ready)], tier := Some(Pinned(w.tier, key, ready))), true)
  }

  /** In the middle of an operation: everything is in order but for `key`, which is not in the tier yet. */
  ghost predicate Pending(s: Store, key: string, now: real) {
    && MemoryOk(s) && TiersOk(s) && s.tier.Some? && (forall k :: k != key ==> KeyOk(s, k) && GuardedAt(s, now, k))
    && key in s.objects && !s.objects[key].persisted && !InTier(s, key) && (key in s.lru <==> !s.objects[key].offloaded)
    && s.objects[key].bytes == s.config.blockBytes && s.objects[key].inUse <= Later(0.0, now)
  }

  /** What a write to the tier does to one key. */
  lemma {:induction false} OffloadedAt(s: Store, key: string, now: real, delay: real, v: Store, ok: bool, k: string)
    requires Pending(s, key, now) && (v, ok) == Offloaded(s, key, now, delay)
    ensures v.lru == s.lru && v.used == s.used && v.config == s.config && v.tier.Some?
    ensures k != key ==> KeyOk(v, k) && GuardedAt(v, now, k) && SafeAt(s, v, now, k)
    ensures k != key && k in s.lru ==> k in s.objects && k in v.objects && v.objects[k].bytes == s.objects[k].bytes
    ensures k in v.objects ==> k in s.objects
    ensures k == key && ok ==> k in v.objects && v.objects[k].persisted && InTier(v, k) && v.objects[k].bytes == s.objects[k].bytes
    ensures k == key && ok ==> GuardedAt(v, now, k) && v.objects[k].offloaded == s.objects[k].offloaded
    ensures k == key && !ok ==> !InTier(v, k) && (k in v.objects <==> !s.objects[k].offloaded)
    ensures k == key && !ok && k in v.objects ==> v.objects[k] == s.objects[k]
  {
    hide TierOk, Write, MemoryBytes;
    var t := s.tier.value;
    var w := Write(t, key, 1, now);
    WriteOk(t, key, 1, now);
    NotedAt(s.objects, w.evicted, k);
    if k != key {
      WriteAt(t, key, 1, now, k);
      assert KeyOk(s, k) && GuardedAt(s, now, k);
    }
  }

  lemma {:induction false} OffloadedMemory(s: Store, key: string, now: real, delay: real, v: Store, ok: bool)
    requires Pending(s, key, now) && (v, ok) == Offloaded(s, key, now, delay)
    ensures MemoryOk(v) && TiersOk(v)
  {
    hide TierOk, Write, MemoryBytes, KeyOk, GuardedAt, SafeAt;
    var t := s.tier.value;
    WriteOk(t, key, 1, now);
    var w := Write(t, key, 1, now);
    if ok { PinnedOk(w.tier, key, now + delay + s.config.writeCost); }
    forall i | 0 <= i < |s.lru|
      ensures s.lru[i] in s.objects && s.lru[i] in v.objects && s.objects[s.lru[i]].bytes == v.objects[s.lru[i]].bytes
    {
      var k := s.lru[i];
      OffloadedAt(s, key, now, delay, v, ok, k);
      if k != key { MemoryKey(s, k); }
    }
    BytesSame(s.objects, v.objects, s.lru);
    OffloadedAt(s, key, now, delay, v, ok, key);
  }

  lemma {:induction false} MemoryKey(s: Store, k: string)
    requires KeyOk(s, k) && k in s.lru
    ensures k in s.objects && !s.objects[k].offloaded
  {
  }

  lemma {:induction false} OffloadedOk(s: Store, key: string, now: real, delay: real, v: Store, ok: bool)
    requires Pending(s, key, now) && (v, ok) == Offloaded(s, key, now, delay)
    ensures Sound(v, now) && (forall k :: k != key ==> SafeAt(s, v, now, k)) && v.lru == s.lru && v.config == s.config && v.tier.Some?
    ensures (forall k :: k in v.objects ==> k in s.objects) && (ok ==> key in v.objects)
  {
    hide MemoryOk, TiersOk, Offloaded;
    OffloadedMemory(s, key, now, delay, v, ok);
    OffloadedAt(s, key, now, delay, v, ok, key);
    forall k ensures KeyOk(v, k) && GuardedAt(v, now, k) && (k != key ==> SafeAt(s, v, now, k)) && (k in v.objects ==> k in s.objects) {
      OffloadedAt(s, key, now, delay, v, ok, k);
    }
  }

  // ----- evicting from memory -----

  /** `_evict_memory`, and how long it takes. */
  function Evicted(s: Store, key: string, now: real): (Store, real)
    requires key in s.objects
  {
    var o := s.objects[key];
    var u := s.(lru := Without(s.lru, key), used := s.used - o.bytes);
    if s.tier.None? then (u.(objects := s.objects - {key}), 0.0)
    else
      var v := u.(objects := s.objects[key := o.(offloaded := true)]);
      if key in s.tier.value.blocks then (v, 0.0)
      else
        var (x, ok) := Offloaded(v, key, now, 0.0);
        (x, if ok then s.config.writeCost else 0.0)
  }

  lemma {:induction false} LeavesMemory(s: Store, key: string, objects: map<string, Object>)
    requires MemoryOk(s) && key in s.lru && key in s.objects
    requires forall k :: k != key ==> (k in objects <==> k in s.objects) && (k in s.objects ==> objects[k] == s.objects[k])
    ensures MemoryOk(s.(lru := Without(s.lru, key), used := s.used - s.objects[key].bytes, objects := objects))
    ensures |Without(s.lru, key)| < |s.lru| && forall k :: k in Without(s.lru, key) <==> k in s.lru && k != key
  {
    hide MemoryBytes;
    WithoutDistinct(s.lru, key);
    forall k ensures k in Without(s.lru, key) <==> k in s.lru && k != key { WithoutMember(s.lru, key, k); }
    BytesWithout(s.objects, s.lru, key);
    BytesSame(s.objects, objects, Without(s.lru, key));
  }

  /** Evicting an object nobody is writing or reading keeps the store in order and everybody else in place. */
  lemma {:induction false} EvictedOk(s: Store, key: string, now: real)
    requires Sound(s, now) && key in s.lru
    ensures key in s.objects
    ensures !Busy(s.objects[key], now) ==>
      var v := Evicted(s, key, now).0;
      && Sound(v, now) && Safe(s, v, now) && |v.lru| < |s.lru| && v.config == s.config && (v.tier.Some? <==> s.tier.Some?)
      && forall k :: k in v.objects ==> k in s.objects
  {
    hide MemoryOk, TiersOk, Offloaded;
    assert KeyOk(s, key);
    if !Busy(s.objects[key], now) {
      var o := s.objects[key];
      if s.tier.None? {
        LeavesMemory(s, key, s.objects - {key});
        var v := Evicted(s, key, now).0;
        UntieredOk(v);
        forall k ensures KeyOk(v, k) && GuardedAt(v, now, k) && SafeAt(s, v, now, k) { assert KeyOk(s, k) && GuardedAt(s, now, k); }
      } else {
        var objects := s.objects[key := o.(offloaded := true)];
        LeavesMemory(s, key, objects);
        var v := s.(lru := Without(s.lru, key), used := s.used - o.bytes, objects := objects);
        SameTiers(s, v);
        forall k ensures k != key ==> KeyOk(v, k) && GuardedAt(v, now, k) && SafeAt(s, v, now, k) { assert KeyOk(s, k) && GuardedAt(s, now, k); }
        if key !in s.tier.value.blocks {
          var (x, ok) := Offloaded(v, key, now, 0.0);
          OffloadedOk(v, key, now, 0.0, x, ok);
          forall k ensures SafeAt(s, x, now, k) { assert k != key ==> SafeAt(s, v, now, k) && SafeAt(v, x, now, k); }
        }
      }
    }
  }

  lemma {:induction false} UntieredOk(s: Store)
    requires s.tier.None?
    ensures TiersOk(s)
  {
  }

  lemma {:induction false} SameTiers(s: Store, v: Store)
    requires TiersOk(s) && v.tier == s.tier
    ensures TiersOk(v)
  {
  }

  // ----- making room -----

  /** The least recently used object from place `i` on that nobody is writing or reading. */
  function Candidate(s: Store, now: real, i: nat): Option<string>
    decreases |s.lru| - i
  {
    if i >= |s.lru| then None
    else if s.lru[i] in s.objects && Later(s.objects[s.lru[i]].ready, s.objects[s.lru[i]].inUse) <= now then Some(s.lru[i])
    else Candidate(s, now, i + 1)
  }

  lemma {:induction false} CandidateIdle(s: Store, now: real, i: nat)
    requires Candidate(s, now, i).Some?
    ensures var key := Candidate(s, now, i).value; key in s.lru && key in s.objects && !Busy(s.objects[key], now)
    decreases |s.lru| - i
  {
    if !(s.lru[i] in s.objects && Later(s.objects[s.lru[i]].ready, s.objects[s.lru[i]].inUse) <= now) { CandidateIdle(s, now, i + 1); }
  }

  /** The candidate is the least recently used idle object: everybody before it is busy, and without one everybody is. */
  lemma {:induction false} CandidateLeastRecent(s: Store, now: real, i: nat) returns (at: nat)
    requires i <= |s.lru| && forall j :: 0 <= j < |s.lru| ==> s.lru[j] in s.objects
    ensures i <= at <= |s.lru| && forall j :: i <= j < at ==> Busy(s.objects[s.lru[j]], now)
    ensures if at < |s.lru| then Candidate(s, now, i) == Some(s.lru[at]) && !Busy(s.objects[s.lru[at]], now) else Candidate(s, now, i).None?
    decreases |s.lru| - i
  {
    at := i;
    if i < |s.lru| && Busy(s.objects[s.lru[i]], now) { at := CandidateLeastRecent(s, now, i + 1); }
  }

  datatype Room = Room(store: Store, ok: bool, latency: real)

  /** The loop of `_ensure_memory_capacity`: evicts until `bytes` more fit or nobody can go. */
  ghost function Drained(s: Store, bytes: nat, now: real): Room
    requires Sound(s, now)
    decreases |s.lru|
  {
    if s.used + bytes <= s.config.memoryCapacity then Room(s, true, 0.0)
    else if !s.config.lruPolicy || Candidate(s, now, 0).None? then Room(s, false, 0.0)
    else
      var key := Candidate(s, now, 0).value;
      CandidateIdle(s, now, 0);
      EvictedOk(s, key, now);
      var (v, latency) := Evicted(s, key, now);
      var rest := Drained(v, bytes, now);
      Room(rest.store, rest.ok, latency + rest.latency)
  }

  ghost function MakeRoom(s: Store, bytes: nat, now: real): Room
    requires Sound(s, now)
  {
    if bytes > s.config.memoryCapacity then Room(s, false, 0.0) else Drained(s, bytes, now)
  }

  lemma {:induction false} SafeTwice(s: Store, u: Store, v: Store, now: real)
    requires Safe(s, u, now) && Safe(u, v, now)
    ensures Safe(s, v, now)
  {
    forall k ensures SafeAt(s, v, now, k) { assert SafeAt(s, u, now, k) && SafeAt(u, v, now, k); }
  }

  lemma {:induction false} SafeSame(s: Store, now: real)
    ensures Safe(s, s, now)
  {
  }

  /** Everybody in memory is being written or read. */
  ghost predicate Crowded(s: Store, now: real) {
    forall k :: k in s.lru ==> k in s.objects && Busy(s.objects[k], now)
  }

  lemma {:induction false} NobodyIdle(s: Store, now: real)
    requires Sound(s, now)
    ensures Candidate(s, now, 0).None? ==> Crowded(s, now)
  {
    forall j | 0 <= j < |s.lru| ensures s.lru[j] in s.objects { assert KeyOk(s, s.lru[j]); }
    var at := CandidateLeastRecent(s, now, 0);
    hide Sound;
    forall k | k in s.lru ensures Candidate(s, now, 0).None? ==> k in s.objects && Busy(s.objects[k], now) {
      var j :| 0 <= j < |s.lru| && s.lru[j] == k;
    }
  }

  lemma {:induction false} DrainedOk(s: Store, bytes: nat, now: real)
    requires Sound(s, now)
    ensures var r := Drained(s, bytes, now);
      && Sound(r.store, now) && Safe(s, r.store, now) && r.store.config == s.config && (r.store.tier.Some? <==> s.tier.Some?)
      && (r.ok ==> r.store.used + bytes <= s.config.memoryCapacity) && (forall k :: k in r.store.objects ==> k in s.objects)
      && (!r.ok && s.config.lruPolicy ==> Crowded(r.store, now))
    decreases |s.lru|
  {
    hide Sound, Safe, Evicted, Candidate, Crowded;
    SafeSame(s, now);
    NobodyIdle(s, now);
    if s.used + bytes > s.config.memoryCapacity && s.config.lruPolicy && Candidate(s, now, 0).Some? {
      var key := Candidate(s, now, 0).value;
      CandidateIdle(s, now, 0);
      EvictedOk(s, key, now);
      var v := Evicted(s, key, now).0;
      DrainedOk(v, bytes, now);
      SafeTwice(s, v, Drained(v, bytes, now).store, now);
    }
  }

  // ----- putting -----

  datatype Put = Put(store: Store, latency: real)

  /** `_put_one`. */
  ghost function PutOne(s: Store, key: string, now: real, delay: real): Put
    requires Sound(s, now)
  {
    if key in s.objects then Put(Touch(s, key), 0.0)
    else
      var room := MakeRoom(s, s.config.blockBytes, now);
      if !room.ok then PutBeside(room, key, now, delay) else PutInside(room, key, now, delay)
  }

  /** No room in memory: straight to the tier, if there is one and it takes the object. */
  function PutBeside(room: Room, key: string, now: real, delay: real): Put {
    var s := room.store;
    if s.tier.None? then Put(s, room.latency)
    else
      var o := Object(s.config.blockBytes, true, false, now + delay, 0.0);
      var (v, ok) := Offloaded(s.(objects := s.objects[key := o]), key, now, delay + room.latency);
      Put(v, if ok then room.latency + s.config.writeCost else room.latency)
  }

  /** Into memory, and a copy into the tier. */
  function PutInside(room: Room, key: string, now: real, delay: real): Put {
    var s := room.store;
    var o := Object(s.config.blockBytes, false, false, now + delay + room.latency, 0.0);
    var u := s.(objects := s.objects[key := o], used := s.used + o.bytes, lru := s.lru + [key]);
    if s.tier.None? then Put(u, room.latency)
    else
      var (v, ok) := Offloaded(u, key, now, delay + room.latency);
      Put(v, if ok then room.latency + s.config.writeCost else room.latency)
  }
}
