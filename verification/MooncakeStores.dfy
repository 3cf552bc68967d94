/** `MooncakeStore` as it runs. */
module MooncakeStores {
  import opened Common
  import opened OffloadTiers
  import opened MooncakeModel
  import opened MooncakeSafety
  import opened MooncakeRuns

  class MooncakeStore {
    const config: Settings
    const offload: OffloadTier?
    var objects: map<string, Object>
    var lru: seq<string>
    var used: int

    ghost function State(): Store
      reads this, offload
    {
      Store(config, objects, lru, used, if offload == null then None else Some(offload.State()))
    }

    constructor (settings: Settings, tier: OffloadTier?)
      ensures config == settings && offload == tier && objects == map[] && lru == [] && used == 0
    {
      config, offload, objects, lru, used := settings, tier, map[], [], 0;
    }

    // ----- touching and evicting -----

    method TouchKey(key: string)
      modifies this`lru
      ensures State() == Touch(old(State()), key)
    {
      if key in objects && !objects[key].offloaded && key in lru { lru := Without(lru, key) + [key]; }
    }

    /** `_record_offload_write`. */
    method RecordEvictions(evicted: seq<string>)
      modifies this`objects
      ensures objects == Noted(old(objects), evicted)
    {
      for i := 0 to |evicted|
        invariant Noted(objects, evicted[i..]) == Noted(old(objects), evicted)
      {
        var key := evicted[i];
        assert evicted[i..][0] == key && evicted[i..][1..] == evicted[i + 1..];
        if key in objects {
          if objects[key].offloaded {
            objects := objects - {key};
          } else {
            objects := objects[key := objects[key].(persisted := false)];
          }
        }
      }
    }

    /** Writes an object of the store to the tier. */
    method WriteObject(key: string, now: real, delay: real) returns (ok: bool)
      requires offload != null && TiersOk(State()) && key in objects
      modifies this`objects, offload
      ensures (State(), ok) == Offloaded(old(State()), key, now, delay)
    {
      hide TierOk, Write, Noted;
      ghost var before := State();
      var o := objects[key];
      var result := offload.WriteKey(key, 1, now);
      ok := result.value.0;
      RecordEvictions(result.value.1);
      if ok {
        var ready := now + delay + config.writeCost;
        objects := objects[key := o.(persisted := true, ready := ready)];
        offload.Pin(key, ready);
      }
    }

    /** `_evict_memory`. */
    method EvictMemory(key: string, now: real) returns (latency: real)
      requires key in objects && TiersOk(State())
      modifies this, offload
      ensures (State(), latency) == Evicted(old(State()), key, now)
    {
      hide TierOk, Offloaded;
      var o := objects[key];
      lru, used := Without(lru, key), used - o.bytes;
      if offload == null {
        objects := objects - {key};
        return 0.0;
      }
      objects := objects[key := o.(offloaded := true)];
      if key in offload.blocks { return 0.0; }
      var ok := WriteObject(key, now, 0.0);
      latency := if ok then config.writeCost else 0.0;
    }

    method FindCandidate(now: real) returns (found: Option<string>)
      ensures found == Candidate(State(), now, 0)
    {
      ghost var s := State();
      for i := 0 to |lru|
        invariant Candidate(s, now, i) == Candidate(s, now, 0)
      {
        var key := lru[i];
        if key in objects && Later(objects[key].ready, objects[key].inUse) <= now { return Some(key); }
      }
      found := None;
    }

    /** `_ensure_memory_capacity`. */
    method EnsureCapacity(bytes: nat, now: real) returns (ok: bool, latency: real)
      requires Sound(State(), now)
      modifies this, offload
      ensures Sound(old(State()), now) && Room(State(), ok, latency) == MakeRoom(old(State()), bytes, now)
      ensures Sound(State(), now)
    {
      hide Sound, Candidate, Evicted, TierOk, Safe;
      ok, latency := false, 0.0;
      if bytes > config.memoryCapacity { return; }
      ghost var start := State();
      while used + bytes > config.memoryCapacity
        invariant Sound(State(), now) && State().config == config
        invariant Sound(start, now) && Prepended(Drained(State(), bytes, now), latency) == Drained(start, bytes, now)
        decreases |lru|
      {
        var candidate := FindCandidate(now);
        if !config.lruPolicy || candidate.None? { return; }
        CandidateIdle(State(), now, 0);
        EvictedOk(State(), candidate.value, now);
        SoundTiers(State(), now);
        var more := EvictMemory(candidate.value, now);
        latency := latency + more;
      }
      ok := true;
    }

    // ----- putting -----

    /** The object goes straight to the tier, or nowhere. */
    method PutInTier(key: string, now: real, delay: real, before: real) returns (latency: real)
      requires offload != null && TiersOk(State()) && key !in objects
      modifies this`objects, offload
      ensures Put(State(), latency) == PutBeside(Room(old(State()), false, before), key, now, delay)
    {
      hide TierOk, Write, Noted;
      ghost var o := Object(config.blockBytes, true, false, now + delay, 0.0);
      WriteOk(offload.State(), key, 1, now);
      var result := offload.WriteKey(key, 1, now);
      var ready := now + (delay + before) + config.writeCost;
      NotedBeside(objects, key, o, Object(config.blockBytes, true, true, ready, 0.0), result.value.1);
      if !result.value.0 { return before; }
      offload.Pin(key, ready);
      RecordEvictions(result.value.1);
      objects := objects[key := Object(config.blockBytes, true, true, ready, 0.0)];
      latency := before + config.writeCost;
    }

    /** `_put_one`. */
    method PutKey(key: string, now: real, delay: real) returns (latency: real)
      requires Sound(State(), now)
      modifies this, offload
      ensures Sound(old(State()), now) && Put(State(), latency) == PutOne(old(State()), key, now, delay) && Sound(State(), now)
    {
      hide Sound, MakeRoom, Safe, Offloaded, TierOk;
      PutOneOk(State(), key, now, delay);
      if key in objects {
        TouchKey(key);
        return 0.0;
      }
      ghost var before := State();
      RoomKeys(before, config.blockBytes, now, key);
      var ok;
      ok, latency := EnsureCapacity(config.blockBytes, now);
      SoundTiers(State(), now);
      if !ok {
        if offload != null { latency := PutInTier(key, now, delay, latency); }
        return;
      }
      objects := objects[key := Object(config.blockBytes, false, false, now + delay + latency, 0.0)];
      used, lru := used + config.blockBytes, lru + [key];
      if offload != null {
        var copied := WriteObject(key, now, delay + latency);
        if copied { latency := latency + config.writeCost; }
      }
    }

    method InstallFresh(keys: seq<string>, o: Object)
      modifies this`objects
      ensures objects == Installed(old(objects), keys, o)
    {
      for i := 0 to |keys|
        invariant Installed(objects, keys[i..], o) == Installed(old(objects), keys, o)
      {
        assert keys[i..][0] == keys[i] && keys[i..][1..] == keys[i + 1..];
        if keys[i] !in objects { objects := objects[keys[i] := o]; }
      }
    }

    /** Every key in turn becomes the most recently used. */
    method Relist(keys: seq<string>)
      modifies this`lru
      ensures lru == Relisted(old(lru), keys)
    {
      for i := 0 to |keys|
        invariant Relisted(lru, keys[i..]) == Relisted(old(lru), keys)
      {
        assert keys[i..][0] == keys[i] && keys[i..][1..] == keys[i + 1..];
        lru := Without(lru, keys[i]) + [keys[i]];
      }
    }

    method CountFresh(keys: seq<string>) returns (n: nat)
      ensures n == |FreshOf(objects, keys)|
    {
      n := 0;
      for i := 0 to |keys|
        invariant n + |FreshOf(objects, keys[i..])| == |FreshOf(objects, keys)|
      {
        assert keys[i..][0] == keys[i] && keys[i..][1..] == keys[i + 1..];
        if keys[i] !in objects { n := n + 1; }
      }
    }

    method DropRepeats(keys: seq<string>) returns (firsts: seq<string>)
      ensures firsts == Firsts(keys, |keys|)
    {
      firsts := [];
      for i := 0 to |keys|
        invariant firsts == Firsts(keys, i)
      {
        if keys[i] !in firsts { firsts := firsts + [keys[i]]; }
      }
    }

    /** `put_with_timing`. */
    method PutKeys(keys: seq<string>, blocks: Option<nat>, now: real, delay: real, never: bool) returns (latency: real)
      requires Sound(State(), now)
      modifies this, offload
      ensures Sound(old(State()), now) && Put(State(), latency) == PutAll(old(State()), keys, blocks, now, delay, never) && Sound(State(), now)
    {
      hide Sound, Safe, PutEach, PutOne, Firsts, FreshOf, Installed, Relisted;
      PutAllOk(State(), keys, blocks, now, delay, never);
      if never || keys == [] { return 0.0; }
      var n := if blocks.Some? then blocks.value else |keys|;
      var batch := Batch(keys, blocks);
      if offload == null && n > BATCH && config.lruPolicy && n * config.blockBytes <= config.memoryCapacity {
        var firsts := DropRepeats(batch);
        var count := CountFresh(firsts);
        if used + count * config.blockBytes <= config.memoryCapacity {
          InstallFresh(firsts, Object(config.blockBytes, false, false, now + delay, 0.0));
          used := used + count * config.blockBytes;
          Relist(firsts);
          return 0.0;
        }
      }
      latency := PutOneByOne(batch, now, delay);
    }

    method PutOneByOne(keys: seq<string>, now: real, delay: real) returns (latency: real)
      requires Sound(State(), now)
      modifies this, offload
      ensures Sound(old(State()), now) && Put(State(), latency) == PutEach(old(State()), keys, now, delay)
    {
      hide Sound, PutOne;
      latency := 0.0;
      ghost var start := State();
      for i := 0 to |keys|
        invariant Sound(State(), now) && Sound(start, now)
        invariant Delayed(PutEach(State(), keys[i..], now, delay + latency), latency) == PutEach(start, keys, now, delay)
      {
        assert keys[i..][0] == keys[i] && keys[i..][1..] == keys[i + 1..];
        var more := PutKey(keys[i], now, delay + latency);
        assert delay + (latency + more) == delay + latency + more;
        latency := latency + more;
      }
    }

    // ----- reading -----

    /** `lookup`: the number of leading keys that hit. */
    method Lookup(keys: seq<string>, now: real) returns (n: nat)
      ensures n == Hits(State(), keys, now, 0)
    {
      ghost var s := State();
      for i := 0 to |keys|
        invariant Hits(s, keys, now, i) == Hits(s, keys, now, 0)
      {
        if keys[i] !in objects || objects[keys[i]].ready > now { return i; }
        if objects[keys[i]].offloaded && offload != null && keys[i] !in offload.blocks { return i; }
      }
      n := |keys|;
    }

    /** `missing_indices`: exactly the places of keys without an object. */
    method MissingIndices(keys: seq<string>, ghost now: real) returns (missing: seq<nat>)
      requires Sound(State(), now)
      ensures forall i :: i in missing <==> 0 <= i < |keys| && keys[i] !in objects
      ensures forall i, j :: 0 <= i < j < |missing| ==> missing[i] < missing[j]
    {
      hide Sound, TierOk;
      missing := [];
      for i := 0 to |keys|
        invariant forall k :: k in missing <==> 0 <= k < i && keys[k] !in objects
        invariant forall k, j :: 0 <= k < j < |missing| ==> missing[k] < missing[j]
      {
        ResidentKey(State(), keys[i], now);
        var present := keys[i] in objects && (!objects[keys[i]].offloaded || offload == null || keys[i] in offload.blocks);
        if !present {
          assert forall j :: 0 <= j < |missing| ==> missing[j] in missing;
          missing := missing + [i];
        }
      }
    }

    /** `get`. */
    method GetKeys(keys: seq<string>, now: real, delay: real) returns (result: Result<real>)
      requires Sound(State(), now)
      modifies this, offload
      ensures Sound(old(State()), now) && Sound(State(), now) && State() == Get(old(State()), keys, now, delay).store
      ensures result == if Get(old(State()), keys, now, delay).ok then Ok(Get(old(State()), keys, now, delay).latency) else Err(SimulationStateError)
    {
      hide Sound, Safe, Longer, TouchRead, ReadCost, Used;
      ghost var start := State();
      GetOk(start, keys, now, delay);
      var latency := 0.0;
      for i := 0 to |keys|
        invariant Sound(State(), now) && Awaited(ReadEach(State(), keys[i..], now), latency) == ReadEach(start, keys, now)
      {
        assert keys[i..][0] == keys[i] && keys[i..][1..] == keys[i + 1..];
        if keys[i] !in objects || objects[keys[i]].ready > now { return Err(SimulationStateError); }
        TouchReadOk(State(), keys[i], now);
        var more := ReadOne(keys[i]);
        latency := latency + more;
      }
      UseAll(keys, now + delay + latency);
      result := Ok(latency);
    }

    method ReadOne(key: string) returns (latency: real)
      modifies this`lru, offload
      ensures State() == TouchRead(old(State()), key) && latency == ReadCost(old(State()), key)
    {
      latency := 0.0;
      TouchKey(key);
      if key in objects && objects[key].offloaded && offload != null {
        if key in offload.blocks && offload.blocks[key] > 0 { latency := config.readCost; }
        offload.ReadKey(key);
      }
    }

    method UseAll(keys: seq<string>, until: real)
      modifies this`objects, offload
      ensures State() == UsedAll(old(State()), keys, until)
    {
      hide Used;
      for i := 0 to |keys|
        invariant UsedAll(State(), keys[i..], until) == UsedAll(old(State()), keys, until)
      {
        assert keys[i..][0] == keys[i] && keys[i..][1..] == keys[i + 1..];
        UseOne(keys[i], until);
      }
    }

    method UseOne(key: string, until: real)
      modifies this`objects, offload
      ensures State() == Used(old(State()), key, until)
    {
      if key in objects {
        var o := objects[key].(inUse := Later(objects[key].inUse, until));
        objects := objects[key := o];
        if o.offloaded && offload != null { offload.Pin(key, o.inUse); }
      }
    }
  }

  ghost function Prepended(r: Room, latency: real): Room {
    r.(latency := latency + r.latency)
  }

  lemma {:induction false} SoundTiers(s: Store, now: real)
    requires Sound(s, now)
    ensures TiersOk(s)
  {
  }

  lemma {:induction false} RoomKeys(s: Store, bytes: nat, now: real, key: string)
    requires Sound(s, now) && key !in s.objects
    ensures key !in MakeRoom(s, bytes, now).store.objects
  {
    hide Sound, Safe, Drained;
    DrainedOk(s, bytes, now);
  }

  ghost function Delayed(p: Put, latency: real): Put {
    p.(latency := latency + p.latency)
  }

  ghost function Awaited(r: Reading, latency: real): Reading {
    r.(latency := latency + r.latency)
  }

  lemma {:induction false} ResidentKey(s: Store, key: string, now: real)
    requires Sound(s, now)
    ensures key in s.objects && s.objects[key].offloaded ==> InTier(s, key)
  {
    assert KeyOk(s, key);
  }

  /** Recording evictions and adding a new object do not interfere; a refused object leaves no trace. */
  lemma {:induction false} NotedBeside(objects: map<string, Object>, key: string, o: Object, p: Object, keys: seq<string>)
    requires key !in objects && o.offloaded
    ensures key !in keys ==> Noted(objects[key := o], keys)[key := p] == Noted(objects, keys)[key := p]
    ensures Noted(objects[key := o], [key]) == objects
  {
    var a, b := Noted(objects[key := o], keys), Noted(objects, keys);
    forall k ensures k != key ==> (k in a <==> k in b) && (k in a ==> a[k] == b[k]) {
      NotedAt(objects[key := o], keys, k);
      NotedAt(objects, keys, k);
    }
    var c := Noted(objects[key := o], [key]);
    forall k ensures (k in c <==> k in objects) && (k in c ==> c[k] == objects[k]) { NotedAt(objects[key := o], [key], k); }
  }
}
