/** What puts and gets keep: the two-tier invariant, and every object that is being written or read. */
module MooncakeSafety {
  import opened Common
  import opened OffloadTiers
  import opened MooncakeModel

  // ----- one key -----

  lemma {:induction false} AddedPending(s: Store, key: string, o: Object, now: real, u: Store)
    requires Sound(s, now) && key !in s.objects && s.tier.Some? && !o.persisted && o.bytes == s.config.blockBytes && o.inUse == 0.0
    requires u == if o.offloaded then s.(objects := s.objects[key := o])
                  else s.(objects := s.objects[key := o], used := s.used + o.bytes, lru := s.lru + [key])
    requires !o.offloaded ==> s.used + o.bytes <= s.config.memoryCapacity
    ensures Pending(u, key, now) && forall k :: k != key ==> SafeAt(s, u, now, k)
  {
    AddedMemory(s, key, o, u);
    hide MemoryOk, TiersOk;
    SameTiers(s, u);
    assert KeyOk(s, key);
    forall k ensures k != key ==> KeyOk(u, k) && GuardedAt(u, now, k) && SafeAt(s, u, now, k) { assert KeyOk(s, k) && GuardedAt(s, now, k); }
  }

  lemma {:induction false} AddedMemory(s: Store, key: string, o: Object, u: Store)
    requires StoreOk(s) && key !in s.objects
    requires u == if o.offloaded then s.(objects := s.objects[key := o])
                  else s.(objects := s.objects[key := o], used := s.used + o.bytes, lru := s.lru + [key])
    requires !o.offloaded ==> s.used + o.bytes <= s.config.memoryCapacity
    ensures MemoryOk(u)
  {
    hide MemoryBytes;
    assert KeyOk(s, key);
    forall i | 0 <= i < |s.lru| ensures s.lru[i] in s.objects && s.lru[i] != key { assert KeyOk(s, s.lru[i]); }
    BytesSame(s.objects, u.objects, s.lru);
    BytesAppend(u.objects, s.lru, key);
  }

  /** A new object is in the store afterwards exactly if some tier took it, and then it is consistent with both. */
  lemma {:induction false} PutBesideOk(room: Room, key: string, now: real, delay: real)
    requires Sound(room.store, now) && key !in room.store.objects
    ensures var v := PutBeside(room, key, now, delay).store;
      && Sound(v, now) && Safe(room.store, v, now) && v.config == room.store.config && (v.tier.Some? <==> room.store.tier.Some?)
      && (key in v.objects <==> room.store.tier.Some? && Write(room.store.tier.value, key, 1, now).ok)
  {
    hide Pending, Offloaded, StoreOk, Guarded, Write;
    var s := room.store;
    SafeSame(s, now);
    if s.tier.Some? {
      var o := Object(s.config.blockBytes, true, false, now + delay, 0.0);
      var u := s.(objects := s.objects[key := o]);
      AddedPending(s, key, o, now, u);
      var (v, ok) := Offloaded(u, key, now, delay + room.latency);
      OffloadedOk(u, key, now, delay + room.latency, v, ok);
      OffloadedAt(u, key, now, delay + room.latency, v, ok, key);
      OffloadedWhen(u, key, now, delay + room.latency);
      SafeNew(s, u, v, now, key);
    }
  }

  lemma {:induction false} OffloadedWhen(s: Store, key: string, now: real, delay: real)
    requires s.tier.Some? && key in s.objects
    ensures Offloaded(s, key, now, delay).1 == Write(s.tier.value, key, 1, now).ok
  {
    hide Write;
  }

  lemma {:induction false} SafeNew(s: Store, u: Store, v: Store, now: real, key: string)
    requires key !in s.objects && (forall k :: k != key ==> SafeAt(s, u, now, k)) && (forall k :: k != key ==> SafeAt(u, v, now, k))
    ensures Safe(s, v, now)
  {
    forall k ensures SafeAt(s, v, now, k) { assert k != key ==> SafeAt(s, u, now, k) && SafeAt(u, v, now, k); }
  }

  lemma {:induction false} PutInsideOk(room: Room, key: string, now: real, delay: real)
    requires Sound(room.store, now) && key !in room.store.objects
    requires room.store.used + room.store.config.blockBytes <= room.store.config.memoryCapacity
    ensures var v := PutInside(room, key, now, delay).store;
      && Sound(v, now) && Safe(room.store, v, now) && v.config == room.store.config && (v.tier.Some? <==> room.store.tier.Some?)
      && key in v.objects && !v.objects[key].offloaded && v.lru == room.store.lru + [key]
  {
    hide Pending, Offloaded;
    var s := room.store;
    var o := Object(s.config.blockBytes, false, false, now + delay + room.latency, 0.0);
    var u := s.(objects := s.objects[key := o], used := s.used + o.bytes, lru := s.lru + [key]);
    if s.tier.None? {
      AddedMemory(s, key, o, u);
      hide MemoryOk, TiersOk;
      UntieredOk(u);
      forall k ensures KeyOk(u, k) && GuardedAt(u, now, k) && SafeAt(s, u, now, k) { assert KeyOk(s, k) && GuardedAt(s, now, k); }
    } else {
      hide StoreOk, Guarded;
      AddedPending(s, key, o, now, u);
      var (v, ok) := Offloaded(u, key, now, delay + room.latency);
      OffloadedOk(u, key, now, delay + room.latency, v, ok);
      OffloadedAt(u, key, now, delay + room.latency, v, ok, key);
      SafeNew(s, u, v, now, key);
    }
  }

  /** A key is rejected only if memory cannot make room, because of the policy, the size or everybody being busy, and the tier cannot either. */
  lemma {:induction false} PutRejected(s: Store, key: string, now: real, delay: real)
    requires Sound(s, now) && key !in PutOne(s, key, now, delay).store.objects
    ensures var r := MakeRoom(s, s.config.blockBytes, now).store;
      && (s.config.blockBytes > s.config.memoryCapacity || !s.config.lruPolicy || Crowded(r, now))
      && (r.tier.Some? ==> !Write(r.tier.value, key, 1, now).ok)
  {
    hide Sound, Safe, Drained, PutBeside, PutInside, Crowded, Write;
    if key in s.objects {
      TouchOk(s, key, now);
    } else {
      DrainedOk(s, s.config.blockBytes, now);
      var room := MakeRoom(s, s.config.blockBytes, now);
      if room.ok { PutInsideOk(room, key, now, delay); } else { PutBesideOk(room, key, now, delay); }
    }
  }

  lemma {:induction false} PutOneOk(s: Store, key: string, now: real, delay: real)
    requires Sound(s, now)
    ensures var v := PutOne(s, key, now, delay).store;
      Sound(v, now) && Safe(s, v, now) && v.config == s.config && (v.tier.Some? <==> s.tier.Some?)
  {
    hide Sound, Safe, Drained, PutBeside, PutInside;
    SafeSame(s, now);
    if key in s.objects {
      TouchOk(s, key, now);
    } else {
      DrainedOk(s, s.config.blockBytes, now);
      var room := MakeRoom(s, s.config.blockBytes, now);
      if room.ok { PutInsideOk(room, key, now, delay); } else { PutBesideOk(room, key, now, delay); }
      SafeTwice(s, room.store, (if room.ok then PutInside(room, key, now, delay) else PutBeside(room, key, now, delay)).store, now);
    }
  }

  // ----- many keys -----

  /** One key after the other, each delayed by what the earlier ones took. */
  ghost function PutEach(s: Store, keys: seq<string>, now: real, delay: real): (p: Put)
    requires Sound(s, now)
    decreases |keys|
  {
    if keys == [] then Put(s, 0.0)
    else
      PutOneOk(s, keys[0], now, delay);
      var first := PutOne(s, keys[0], now, delay);
      var rest := PutEach(first.store, keys[1..], now, delay + first.latency);
      Put(rest.store, first.latency + rest.latency)
  }

  lemma {:induction false} PutEachOk(s: Store, keys: seq<string>, now: real, delay: real)
    requires Sound(s, now)
    ensures var v := PutEach(s, keys, now, delay).store;
      Sound(v, now) && Safe(s, v, now) && v.config == s.config && (v.tier.Some? <==> s.tier.Some?)
    decreases |keys|
  {
    hide Sound, Safe, PutOne;
    SafeSame(s, now);
    if keys != [] {
      PutOneOk(s, keys[0], now, delay);
      var first := PutOne(s, keys[0], now, delay);
      PutEachOk(first.store, keys[1..], now, delay + first.latency);
      SafeTwice(s, first.store, PutEach(first.store, keys[1..], now, delay + first.latency).store, now);
    }
  }

  // ----- reading -----

  /** The pins and uses of `get` for one key once the latency is known. */
  function Used(s: Store, key: string, until: real): Store {
    if key !in s.objects then s
    else
      var o := s.objects[key].(inUse := Later(s.objects[key].inUse, until));
      var v := s.(objects := s.objects[key := o]);
      if o.offloaded && s.tier.Some? then v.(tier := Some(Pinned(s.tier.value, key, o.inUse))) else v
  }

  function UsedAll(s: Store, keys: seq<string>, until: real): Store
    decreases |keys|
  {
    if keys == [] then s else UsedAll(Used(s, keys[0], until), keys[1..], until)
  }

  /** `_touch`, and a read of the tier for an offloaded object. */
  function TouchRead(s: Store, key: string): Store {
    var u := Touch(s, key);
    if key in s.objects && s.objects[key].offloaded && s.tier.Some? then u.(tier := Some(Read(s.tier.value, key))) else u
  }

  function ReadCost(s: Store, key: string): real {
    if key in s.objects && s.objects[key].offloaded && s.tier.Some? && Size(s.tier.value, key) > 0 then s.config.readCost else 0.0
  }

  datatype Reading = Reading(store: Store, ok: bool, latency: real)

  /** The first loop of `get`: it stops at the first key that is absent or not ready. */
  function ReadEach(s: Store, keys: seq<string>, now: real): Reading
    decreases |keys|
  {
    if keys == [] then Reading(s, true, 0.0)
    else if keys[0] !in s.objects || s.objects[keys[0]].ready > now then Reading(s, false, 0.0)
    else
      var rest := ReadEach(TouchRead(s, keys[0]), keys[1..], now);
      Reading(rest.store, rest.ok, ReadCost(s, keys[0]) + rest.latency)
  }

  function Get(s: Store, keys: seq<string>, now: real, delay: real): Reading {
    var r := ReadEach(s, keys, now);
    if !r.ok then r else r.(store := UsedAll(r.store, keys, now + delay + r.latency))
  }

  lemma {:induction false} TouchReadOk(s: Store, key: string, now: real)
    requires Sound(s, now)
    ensures var v := TouchRead(s, key);
      Sound(v, now) && v.objects == s.objects && v.config == s.config && (v.tier.Some? <==> s.tier.Some?) && Safe(s, v, now)
  {
    hide MemoryOk;
    TouchOk(s, key, now);
    var u, v := Touch(s, key), TouchRead(s, key);
    if v != u {
      ReadOk(s.tier.value, key);
      ReadKeeps(s.tier.value, key);
      SameMemory(u, v);
      forall k ensures KeyOk(v, k) && GuardedAt(v, now, k) && SafeAt(s, v, now, k) { assert KeyOk(u, k) && GuardedAt(u, now, k); }
    }
  }

  lemma {:induction false} ReadKeeps(t: Tier, key: string)
    ensures Read(t, key).blocks == t.blocks && Read(t, key).pins == t.pins && Read(t, key).capacity == t.capacity
  {
  }

  lemma {:induction false} SameMemory(s: Store, v: Store)
    requires MemoryOk(s) && v.objects == s.objects && v.lru == s.lru && v.used == s.used && v.config == s.config
    ensures MemoryOk(v)
  {
  }

  lemma {:induction false} ReadEachOk(s: Store, keys: seq<string>, now: real)
    requires Sound(s, now)
    ensures var r := ReadEach(s, keys, now);
      && Sound(r.store, now) && r.store.objects == s.objects && r.store.config == s.config && (r.store.tier.Some? <==> s.tier.Some?)
      && (r.ok <==> forall i :: 0 <= i < |keys| ==> keys[i] in s.objects && s.objects[keys[i]].ready <= now)
    decreases |keys|
  {
    hide Sound, TouchRead;
    if keys != [] {
      TouchReadOk(s, keys[0], now);
      ReadEachOk(TouchRead(s, keys[0]), keys[1..], now);
      assert keys == [keys[0]] + keys[1..];
    }
  }

  lemma {:induction false} UsedOk(s: Store, key: string, until: real, now: real)
    requires Sound(s, now)
    ensures var v := Used(s, key, until);
      && Sound(v, now) && v.config == s.config && (v.tier.Some? <==> s.tier.Some?) && Safe(s, v, now)
      && (forall k :: k in v.objects <==> k in s.objects)
      && (forall k :: k in s.objects ==> v.objects[k].offloaded == s.objects[k].offloaded && v.objects[k].inUse >= s.objects[k].inUse
                                         && v.objects[k].ready == s.objects[k].ready)
      && (key in s.objects ==> v.objects[key].inUse >= until)
  {
    hide MemoryBytes;
    var v := Used(s, key, until);
    if key in s.objects {
      assert KeyOk(s, key);
      BytesSame(s.objects, v.objects, s.lru);
      if s.objects[key].offloaded && s.tier.Some? {
        PinnedOk(s.tier.value, key, v.objects[key].inUse);
      }
      hide TierOk;
      forall k ensures KeyOk(v, k) && GuardedAt(v, now, k) && SafeAt(s, v, now, k) { assert KeyOk(s, k) && GuardedAt(s, now, k); }
    } else {
      SafeSame(s, now);
    }
  }

  /** Objects stay where they are and their uses only grow longer. */
  ghost predicate Longer(s: Store, v: Store, k: string) {
    k in s.objects ==>
      k in v.objects && v.objects[k].offloaded == s.objects[k].offloaded && v.objects[k].inUse >= s.objects[k].inUse && v.objects[k].ready == s.objects[k].ready
  }

  lemma {:induction false} UsedAllOk(s: Store, keys: seq<string>, until: real, now: real)
    requires Sound(s, now)
    ensures var v := UsedAll(s, keys, until);
      && Sound(v, now) && v.config == s.config && (v.tier.Some? <==> s.tier.Some?)
      && (forall k :: Longer(s, v, k)) && (forall k :: k in keys && k in s.objects ==> k in v.objects && v.objects[k].inUse >= until)
    decreases |keys|
  {
    hide Sound, Used, Safe;
    if keys != [] {
      UsedOk(s, keys[0], until, now);
      var u := Used(s, keys[0], until);
      UsedAllOk(u, keys[1..], until, now);
      var v := UsedAll(u, keys[1..], until);
      forall k ensures Longer(s, v, k) && (k in keys && k in s.objects ==> k in v.objects && v.objects[k].inUse >= until) {
        assert Longer(u, v, k);
        assert keys == [keys[0]] + keys[1..];
      }
    }
  }

  /**
    A read succeeds exactly if every key has a ready object.  It moves nothing, and on success every object
    read is in use until the read is over; a failed read changes no object at all.
   */
  lemma {:induction false} GetOk(s: Store, keys: seq<string>, now: real, delay: real)
    requires Sound(s, now)
    ensures var r := Get(s, keys, now, delay);
      && Sound(r.store, now) && Safe(s, r.store, now) && r.store.config == s.config && (r.store.tier.Some? <==> s.tier.Some?)
      && (r.ok <==> forall i :: 0 <= i < |keys| ==> keys[i] in s.objects && s.objects[keys[i]].ready <= now)
      && (forall k :: Longer(s, r.store, k)) && (!r.ok ==> r.store.objects == s.objects)
      && (r.ok ==> forall k :: k in keys ==> k in s.objects && k in r.store.objects && r.store.objects[k].inUse >= now + delay + r.latency)
  {
    hide Sound, ReadEach, UsedAll;
    ReadEachOk(s, keys, now);
    var r := ReadEach(s, keys, now);
    if r.ok {
      UsedAllOk(r.store, keys, now + delay + r.latency, now);
      var v := UsedAll(r.store, keys, now + delay + r.latency);
      forall k ensures Longer(s, v, k) { assert Longer(r.store, v, k); }
      forall k | k in keys ensures k in s.objects && k in v.objects && v.objects[k].inUse >= now + delay + r.latency {
        var i :| 0 <= i < |keys| && keys[i] == k;
      }
    }
    forall k ensures SafeAt(s, Get(s, keys, now, delay).store, now, k) { assert Longer(s, Get(s, keys, now, delay).store, k); }
  }
}
