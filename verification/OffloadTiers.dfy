/** The offload tier of the store: block counts per key, least recently used first, with pinned keys. */
module OffloadTiers {
  import opened Common

  datatype Tier = Tier(capacity: nat, blocks: map<string, nat>, lru: seq<string>, used: int, pins: map<string, real>)

  function Size(t: Tier, key: string): nat {
    if key in t.blocks then t.blocks[key] else 0
  }

  /** Until when `key` may not be evicted. */
  function PinOf(t: Tier, key: string): real {
    if key in t.pins then t.pins[key] else 0.0
  }

  function Sum(t: Tier, keys: seq<string>): nat {
    if keys == [] then 0 else Size(t, keys[0]) + Sum(t, keys[1..])
  }

  /** The list holds exactly the stored keys, only stored keys are pinned, and the usage is the sum of the stored blocks. */
  ghost predicate TierOk(t: Tier) {
    && NoRepeats(t.lru) && (forall k :: k in t.lru <==> k in t.blocks) && (forall k :: k in t.pins ==> k in t.blocks)
    && t.used == Sum(t, t.lru) && t.used <= t.capacity
  }

  // ----- taking keys out -----

  /** `_remove_existing`. */
  function Removed(t: Tier, key: string): Tier {
    t.(blocks := t.blocks - {key}, lru := Without(t.lru, key), used := t.used - Size(t, key), pins := t.pins - {key})
  }

  lemma {:induction false} SumSame(t: Tier, u: Tier, keys: seq<string>)
    requires forall i :: 0 <= i < |keys| ==> Size(u, keys[i]) == Size(t, keys[i])
    ensures Sum(u, keys) == Sum(t, keys)
    decreases |keys|
  {
    hide Size;
    if keys != [] {
      assert forall i :: 0 <= i < |keys[1..]| ==> keys[1..][i] == keys[i + 1];
      SumSame(t, u, keys[1..]);
    }
  }

  lemma {:induction false} SumWithout(t: Tier, keys: seq<string>, key: string)
    requires NoRepeats(keys)
    ensures Sum(t, Without(keys, key)) == Sum(t, keys) - (if key in keys then Size(t, key) else 0)
    decreases |keys|
  {
    hide Size;
    if keys != [] {
      var rest := keys[1..];
      assert keys == [keys[0]] + rest;
      assert keys[0] !in rest;
      SumWithout(t, rest, key);
      if keys[0] == key {
        WithoutAbsent(rest, key);
      } else {
        assert ([keys[0]] + Without(rest, key))[1..] == Without(rest, key);
      }
    }
  }

  lemma {:induction false} SumConcat(t: Tier, a: seq<string>, b: seq<string>)
    ensures Sum(t, a + b) == Sum(t, a) + Sum(t, b)
    decreases |a|
  {
    hide Size;
    if a == [] {
      assert a + b == b;
    } else {
      assert (a + b)[1..] == a[1..] + b;
      SumConcat(t, a[1..], b);
    }
  }

  lemma {:induction false} RemovedOk(t: Tier, key: string)
    requires TierOk(t)
    ensures TierOk(Removed(t, key)) && key !in Removed(t, key).blocks
    ensures forall k :: k != key ==> (k in Removed(t, key).blocks <==> k in t.blocks)
  {
    hide Sum;
    var u := Removed(t, key);
    WithoutDistinct(t.lru, key);
    forall k ensures k in u.lru <==> k in t.lru && k != key { WithoutMember(t.lru, key, k); }
    SumWithout(t, t.lru, key);
    SumSame(t, u, u.lru);
  }

  function RemovedAll(t: Tier, keys: seq<string>): Tier
    decreases |keys|
  {
    if keys == [] then t else RemovedAll(Removed(t, keys[0]), keys[1..])
  }

  lemma {:induction false} RemovedAllOk(t: Tier, keys: seq<string>)
    requires TierOk(t) && NoRepeats(keys)
    ensures TierOk(RemovedAll(t, keys)) && RemovedAll(t, keys).capacity == t.capacity
    ensures RemovedAll(t, keys).used == t.used - Sum(t, keys)
    decreases |keys|
  {
    hide TierOk;
    if keys != [] {
      var u, rest := Removed(t, keys[0]), keys[1..];
      RemovedOk(t, keys[0]);
      assert forall i :: 0 <= i < |rest| ==> rest[i] == keys[i + 1];
      RemovedAllOk(u, rest);
      SumSame(t, u, rest);
    }
  }

  lemma {:induction false} RemovedAllAt(t: Tier, keys: seq<string>, k: string)
    ensures k in RemovedAll(t, keys).blocks <==> k in t.blocks && k !in keys
    ensures k !in keys ==> Size(RemovedAll(t, keys), k) == Size(t, k) && PinOf(RemovedAll(t, keys), k) == PinOf(t, k)
    ensures k in RemovedAll(t, keys).pins <==> k in t.pins && k !in keys
    decreases |keys|
  {
    if keys != [] {
      assert keys == [keys[0]] + keys[1..];
      RemovedAllAt(Removed(t, keys[0]), keys[1..], k);
    }
  }

  // ----- writing -----

  /** The unpinned keys from place `i` on, until together with the available blocks they make room. */
  function Picked(t: Tier, key: string, now: real, extra: int, available: int, i: nat): (picked: seq<string>)
    decreases |t.lru| - i
  {
    if i >= |t.lru| || extra <= available then []
    else if t.lru[i] != key && PinOf(t, t.lru[i]) <= now
    then [t.lru[i]] + Picked(t, key, now, extra, available + Size(t, t.lru[i]), i + 1)
    else Picked(t, key, now, extra, available, i + 1)
  }

  lemma {:induction false} PickedFrom(t: Tier, key: string, now: real, extra: int, available: int, i: nat, c: string)
    requires c in Picked(t, key, now, extra, available, i)
    ensures c != key && PinOf(t, c) <= now && i < |t.lru| && c in t.lru[i..]
    decreases |t.lru| - i
  {
    assert t.lru[i..] == [t.lru[i]] + t.lru[i + 1..];
    if t.lru[i] != key && PinOf(t, t.lru[i]) <= now {
      if c != t.lru[i] { PickedFrom(t, key, now, extra, available + Size(t, t.lru[i]), i + 1, c); }
    } else {
      PickedFrom(t, key, now, extra, available, i + 1, c);
    }
  }

  lemma {:induction false} PickedOnce(t: Tier, key: string, now: real, extra: int, available: int, i: nat)
    requires NoRepeats(t.lru)
    ensures NoRepeats(Picked(t, key, now, extra, available, i))
    decreases |t.lru| - i
  {
    if i < |t.lru| && extra > available {
      if t.lru[i] != key && PinOf(t, t.lru[i]) <= now {
        var rest := Picked(t, key, now, extra, available + Size(t, t.lru[i]), i + 1);
        PickedOnce(t, key, now, extra, available + Size(t, t.lru[i]), i + 1);
        if t.lru[i] in rest { PickedFrom(t, key, now, extra, available + Size(t, t.lru[i]), i + 1, t.lru[i]); }
      } else {
        PickedOnce(t, key, now, extra, available, i + 1);
      }
    }
  }

  /** Everybody from place `i` on who could be evicted for `key`. */
  function Unpinned(t: Tier, key: string, now: real, i: nat): seq<string>
    decreases |t.lru| - i
  {
    if i >= |t.lru| then []
    else (if t.lru[i] != key && PinOf(t, t.lru[i]) <= now then [t.lru[i]] else []) + Unpinned(t, key, now, i + 1)
  }

  /** The scan stops early only when there is room. */
  lemma {:induction false} PickedSuffice(t: Tier, key: string, now: real, extra: int, available: int, i: nat)
    ensures var picked, all := Picked(t, key, now, extra, available, i), Unpinned(t, key, now, i);
      picked <= all && (extra <= available + Sum(t, picked) <==> extra <= available + Sum(t, all))
    decreases |t.lru| - i
  {
    hide Size;
    if i < |t.lru| && extra > available {
      var c := t.lru[i];
      if c != key && PinOf(t, c) <= now {
        PickedSuffice(t, key, now, extra, available + Size(t, c), i + 1);
        SumBefore(t, c, Picked(t, key, now, extra, available + Size(t, c), i + 1));
        SumBefore(t, c, Unpinned(t, key, now, i + 1));
      } else {
        PickedSuffice(t, key, now, extra, available, i + 1);
        assert [] + Unpinned(t, key, now, i + 1) == Unpinned(t, key, now, i + 1);
      }
    }
  }

  lemma {:induction false} SumBefore(t: Tier, key: string, keys: seq<string>)
    ensures Sum(t, [key] + keys) == Size(t, key) + Sum(t, keys)
  {
    assert ([key] + keys)[1..] == keys;
  }

  /** It takes nobody it does not need. */
  lemma {:induction false} PickedNeeded(t: Tier, key: string, now: real, extra: int, available: int, i: nat)
    ensures var picked := Picked(t, key, now, extra, available, i);
      picked != [] ==> extra > available + Sum(t, picked[..|picked| - 1])
    decreases |t.lru| - i
  {
    hide Size;
    if i < |t.lru| && extra > available {
      var c := t.lru[i];
      if c != key && PinOf(t, c) <= now {
        var rest := Picked(t, key, now, extra, available + Size(t, c), i + 1);
        PickedNeeded(t, key, now, extra, available + Size(t, c), i + 1);
        if rest == [] {
          assert ([c] + rest)[..0] == [];
        } else {
          assert ([c] + rest)[..|rest|] == [c] + rest[..|rest| - 1];
          SumBefore(t, c, rest[..|rest| - 1]);
        }
      } else {
        PickedNeeded(t, key, now, extra, available, i + 1);
      }
    }
  }

  /** `ok` is whether the key was stored; a refused write names the key itself as evicted. */
  datatype Written = Written(tier: Tier, ok: bool, evicted: seq<string>)

  function Victims(t: Tier, key: string, n: nat, now: real): seq<string> {
    Picked(t, key, now, n - Size(t, key), t.capacity - t.used, 0)
  }

  predicate Fits(t: Tier, key: string, n: nat, now: real) {
    n <= t.capacity && n - Size(t, key) <= t.capacity - t.used + Sum(t, Victims(t, key, n, now))
  }

  function Added(t: Tier, key: string, n: nat): Tier {
    t.(blocks := t.blocks[key := n], lru := t.lru + [key], used := t.used + n)
  }

  function Write(t: Tier, key: string, n: nat, now: real): Written {
    if !Fits(t, key, n, now) then Written(t, false, [key])
    else
      var victims := Victims(t, key, n, now);
      Written(Added(Removed(RemovedAll(t, victims), key), key, n), true, victims)
  }

  lemma {:induction false} AddedOk(t: Tier, key: string, n: nat)
    requires TierOk(t) && key !in t.blocks && t.used + n <= t.capacity
    ensures TierOk(Added(t, key, n))
  {
    hide Sum;
    var u := Added(t, key, n);
    SumSame(t, u, t.lru);
    SumConcat(u, t.lru, [key]);
    SumOne(u, key);
  }

  lemma {:induction false} SumOne(t: Tier, key: string)
    ensures Sum(t, [key]) == Size(t, key)
  {
    assert [key][1..] == [];
  }

  /**
    A write keeps the tier consistent and within its capacity.  It evicts only unpinned keys, everybody
    else stays with size and pin, and a refused write changes nothing.
   */
  lemma {:induction false} WriteOk(t: Tier, key: string, n: nat, now: real)
    requires TierOk(t)
    ensures var w := Write(t, key, n, now);
      && TierOk(w.tier) && w.tier.capacity == t.capacity
      && (w.ok ==> key !in w.evicted && Size(w.tier, key) == n && key in w.tier.blocks && key !in w.tier.pins)
      && (!w.ok ==> w.tier == t && w.evicted == [key])
  {
    hide TierOk, Sum, Picked;
    if Fits(t, key, n, now) {
      var victims := Victims(t, key, n, now);
      VictimsOnce(t, key, n, now);
      RemovedAllOk(t, victims);
      var u := RemovedAll(t, victims);
      RemovedOk(u, key);
      if key in victims { VictimAt(t, key, n, now, key); }
      RemovedAllAt(t, victims, key);
      AddedOk(Removed(u, key), key, n);
    }
  }

  lemma {:induction false} VictimsOnce(t: Tier, key: string, n: nat, now: real)
    requires TierOk(t)
    ensures NoRepeats(Victims(t, key, n, now))
  {
    PickedOnce(t, key, now, n - Size(t, key), t.capacity - t.used, 0);
  }

  lemma {:induction false} VictimAt(t: Tier, key: string, n: nat, now: real, k: string)
    requires TierOk(t) && k in Victims(t, key, n, now)
    ensures k != key && PinOf(t, k) <= now && k in t.blocks
  {
    PickedFrom(t, key, now, n - Size(t, key), t.capacity - t.used, 0, k);
  }

  lemma {:induction false} WriteAt(t: Tier, key: string, n: nat, now: real, k: string)
    requires TierOk(t) && k != key
    ensures var w := Write(t, key, n, now);
      && (k in w.tier.blocks <==> k in t.blocks && k !in w.evicted)
      && (k !in w.evicted ==> Size(w.tier, k) == Size(t, k) && PinOf(w.tier, k) == PinOf(t, k))
      && (k in w.evicted ==> k in t.blocks && PinOf(t, k) <= now)
  {
    hide TierOk, Sum, Picked;
    if Fits(t, key, n, now) {
      var victims := Victims(t, key, n, now);
      RemovedAllAt(t, victims, k);
      if k in victims { VictimAt(t, key, n, now, k); }
    }
  }

  /**
    A write is refused exactly if evicting every unpinned key would not make room.  The victims are the
    least recently used unpinned keys, and without the last of them there would be no room.
   */
  lemma {:induction false} WriteEvictsLeast(t: Tier, key: string, n: nat, now: real)
    requires TierOk(t)
    ensures var w, all := Write(t, key, n, now), Unpinned(t, key, now, 0);
      && (w.ok <==> n <= t.capacity && n - Size(t, key) <= t.capacity - t.used + Sum(t, all))
      && (w.ok ==> w.evicted <= all)
      && (w.ok && w.evicted != [] ==> n - Size(t, key) > t.capacity - t.used + Sum(t, w.evicted[..|w.evicted| - 1]))
  {
    hide TierOk, Picked, Unpinned, Sum;
    PickedSuffice(t, key, now, n - Size(t, key), t.capacity - t.used, 0);
    PickedNeeded(t, key, now, n - Size(t, key), t.capacity - t.used, 0);
  }

  // ----- reading and pinning -----

  function Read(t: Tier, key: string): Tier {
    if key in t.lru then t.(lru := Without(t.lru, key) + [key]) else t
  }

  function Pinned(t: Tier, key: string, until: real): Tier {
    t.(pins := t.pins[key := Later(PinOf(t, key), until)])
  }

  lemma {:induction false} ReadOk(t: Tier, key: string)
    requires TierOk(t)
    ensures TierOk(Read(t, key))
  {
    hide Sum;
    if key in t.lru {
      var u := Read(t, key);
      WithoutDistinct(t.lru, key);
      forall k ensures k in Without(t.lru, key) <==> k in t.lru && k != key { WithoutMember(t.lru, key, k); }
      SumWithout(t, t.lru, key);
      SumConcat(t, Without(t.lru, key), [key]);
      SumOne(t, key);
      SumSame(t, u, u.lru);
    }
  }

  lemma {:induction false} PinnedOk(t: Tier, key: string, until: real)
    requires TierOk(t) && key in t.blocks
    ensures TierOk(Pinned(t, key, until))
  {
    hide Sum;
    SumSame(t, Pinned(t, key, until), t.lru);
  }

  // ----- the tier as it runs -----

  class OffloadTier {
    const capacity: nat
    var blocks: map<string, nat>
    var lru: seq<string>
    var used: int
    var pins: map<string, real>

    ghost function State(): Tier
      reads this
    {
      Tier(capacity, blocks, lru, used, pins)
    }

    constructor (size: nat)
      ensures State() == Tier(size, map[], [], 0, map[]) && TierOk(State())
    {
      capacity, blocks, lru, used, pins := size, map[], [], 0, map[];
    }

    /** `read`: moves the key to the end. */
    method ReadKey(key: string)
      modifies this`lru
      ensures State() == Read(old(State()), key)
    {
      if key in lru { lru := Without(lru, key) + [key]; }
    }

    method Pin(key: string, until: real)
      modifies this`pins
      ensures State() == Pinned(old(State()), key, until)
    {
      var before := if key in pins then pins[key] else 0.0;
      pins := pins[key := if before >= until then before else until];
    }

    method RemoveExisting(key: string)
      modifies this
      ensures State() == Removed(old(State()), key)
    {
      used := used - (if key in blocks then blocks[key] else 0);
      blocks, lru, pins := blocks - {key}, Without(lru, key), pins - {key};
    }

    /** The scan for victims. */
    method PickVictims(key: string, extra: int, now: real) returns (picked: seq<string>, available: int)
      requires TierOk(State())
      ensures picked == Picked(State(), key, now, extra, capacity - used, 0) && available == capacity - used + Sum(State(), picked)
    {
      hide TierOk;
      picked, available := [], capacity - used;
      var i := 0;
      while i < |lru| && extra > available
        invariant i <= |lru| && available == capacity - used + Sum(State(), picked)
        invariant picked + Picked(State(), key, now, extra, available, i) == Picked(State(), key, now, extra, capacity - used, 0)
        decreases |lru| - i
      {
        var c := lru[i];
        if c != key && (if c in pins then pins[c] else 0.0) <= now {
          SumConcat(State(), picked, [c]);
          SumOne(State(), c);
          assert picked + ([c] + Picked(State(), key, now, extra, available + Size(State(), c), i + 1)) ==
                 (picked + [c]) + Picked(State(), key, now, extra, available + Size(State(), c), i + 1);
          picked := picked + [c];
          available := available + (if c in blocks then blocks[c] else 0);
        }
        i := i + 1;
      }
    }

    /** `write`. */
    method WriteKey(key: string, n: nat, now: real) returns (result: Result<(bool, seq<string>)>)
      requires TierOk(State())
      modifies this
      ensures TierOk(State())
      ensures capacity == 0 ==> result == Err(ConfigurationError) && State() == old(State())
      ensures capacity > 0 ==> result.Ok? && Written(State(), result.value.0, result.value.1) == Write(old(State()), key, n, now)
    {
      hide TierOk, Sum, Picked, RemovedAll;
      WriteOk(State(), key, n, now);
      if capacity == 0 { return Err(ConfigurationError); }
      if n > capacity { return Ok((false, [key])); }
      var extra := n - (if key in blocks then blocks[key] else 0);
      var victims, available := PickVictims(key, extra, now);
      if extra > available { return Ok((false, [key])); }
      RemoveEach(victims);
      RemoveExisting(key);
      blocks, lru, used := blocks[key := n], lru + [key], used + n;
      result := Ok((true, victims));
    }

    method RemoveEach(keys: seq<string>)
      modifies this
      ensures State() == RemovedAll(old(State()), keys)
    {
      for i := 0 to |keys|
        invariant RemovedAll(State(), keys[i..]) == RemovedAll(old(State()), keys)
      {
        assert keys[i..][0] == keys[i] && keys[i..][1..] == keys[i + 1..];
        RemoveExisting(keys[i]);
      }
    }
  }
}
