/** The cache of recently built key chains, and why building through it gives the plain chain. */
module ChainCaches {
  import opened Common
  import opened PrefixKeys
  import opened KvManager

  // ----- common prefixes -----

  /** `n` leading signatures agree and the next ones, if both exist, differ. */
  predicate IsCommonPrefix(left: seq<string>, right: seq<string>, n: nat) {
    && n <= |left| && n <= |right| && left[..n] == right[..n]
    && (n < |left| && n < |right| ==> left[n] != right[n])
  }

  /** At most `n` leading signatures agree. */
  predicate SharesAtMost(left: seq<string>, right: seq<string>, n: nat) {
    n < |left| && n < |right| ==> left[..n + 1] != right[..n + 1]
  }

  lemma {:induction false} SharesNoMore(left: seq<string>, right: seq<string>, n: nat, m: nat)
    requires IsCommonPrefix(left, right, n) && n <= m
    ensures SharesAtMost(left, right, m)
  {
    if m < |left| && m < |right| && left[..m + 1] == right[..m + 1] { LongestIsUnique(left, right, n, m + 1); }
  }

  lemma {:induction false} SharesLess(left: seq<string>, right: seq<string>, n: nat, m: nat)
    requires SharesAtMost(left, right, n) && n <= m
    ensures SharesAtMost(left, right, m)
  {
    if m < |left| && m < |right| && left[..m + 1] == right[..m + 1] { ShorterAgree(left, right, m + 1, n + 1); }
  }

  ghost predicate AllShareAtMost(chains: seq<Chain>, k: nat, signatures: seq<string>, n: nat) {
    k <= |chains| && forall i :: 0 <= i < k ==> SharesAtMost(chains[i].signatures, signatures, n)
  }

  lemma {:induction false} LongestIsUnique(left: seq<string>, right: seq<string>, n: nat, m: nat)
    requires IsCommonPrefix(left, right, n) && m <= |left| && m <= |right| && left[..m] == right[..m]
    ensures m <= n
  {
    if n < m { AgreeAt(left, right, m, n); }
  }

  lemma {:induction false} AgreeAt(left: seq<string>, right: seq<string>, m: nat, k: nat)
    requires k < m <= |left| && m <= |right| && left[..m] == right[..m]
    ensures left[k] == right[k]
  {
    assert left[..m][k] == left[k] && right[..m][k] == right[k];
  }

  lemma {:induction false} DifferNext(left: seq<string>, right: seq<string>, low: nat)
    requires low < |left| && low < |right| && left[..low] == right[..low] && left[..low + 1] != right[..low + 1]
    ensures left[low] != right[low]
  {
    assert left[..low + 1] == left[..low] + [left[low]] && right[..low + 1] == right[..low] + [right[low]];
  }

  lemma {:induction false} ShorterAgree(left: seq<string>, right: seq<string>, n: nat, m: nat)
    requires m <= n <= |left| && n <= |right| && left[..n] == right[..n]
    ensures left[..m] == right[..m]
  {
    assert left[..m] == left[..n][..m] && right[..m] == right[..n][..m];
  }

  /** `_common_prefix`: by binary search for the first difference. */
  method CommonPrefix(left: seq<string>, right: seq<string>) returns (n: nat)
    ensures IsCommonPrefix(left, right, n)
  {
    var size := if |left| <= |right| then |left| else |right|;
    if size == 0 || left[0] != right[0] { return 0; }
    if left[..size] == right[..size] { return size; }
    var low, high := 1, size;
    while high - low > 1
      invariant 1 <= low < high <= size
      invariant left[..low] == right[..low] && left[..high] != right[..high]
    {
      var middle := (low + high) / 2;
      if left[..middle] == right[..middle] { low := middle; } else { high := middle; }
    }
    DifferNext(left, right, low);
    return low;
  }

  // ----- chains -----

  /** Signatures, their keys, and the parent hash behind the last key. */
  datatype Chain = Chain(signatures: seq<string>, keys: seq<Key>, parent: Hash)

  ghost predicate IsPlain(scope: Hash, c: Chain) {
    && c.keys == PlainChain(c.signatures, scope, |c.signatures|)
    && c.parent == ParentHash(c.signatures, scope, |c.signatures|)
  }

  ghost predicate AllPlain(scope: Hash, chains: seq<Chain>) {
    forall i :: 0 <= i < |chains| ==> IsPlain(scope, chains[i])
  }

  /** No chain is a prefix of another. */
  ghost predicate Incomparable(chains: seq<Chain>) {
    forall i, j :: 0 <= i < |chains| && 0 <= j < |chains| && i != j ==> !(chains[i].signatures <= chains[j].signatures)
  }

  /** Nobody in the scope has these signatures in front. */
  ghost predicate Uncovered(chains: seq<Chain>, signatures: seq<string>) {
    forall i :: 0 <= i < |chains| ==> !(signatures <= chains[i].signatures)
  }

  ghost predicate ScopeOk(scope: Hash, chains: seq<Chain>, limit: nat) {
    AllPlain(scope, chains) && Incomparable(chains) && |chains| <= limit
  }

  /** The chains that `signatures` does not extend. */
  function Kept(chains: seq<Chain>, signatures: seq<string>, n: nat): (kept: seq<Chain>)
    requires n <= |chains|
    ensures |kept| <= n
  {
    if n == 0 then []
    else if chains[n - 1].signatures <= signatures then Kept(chains, signatures, n - 1)
    else Kept(chains, signatures, n - 1) + [chains[n - 1]]
  }

  lemma {:induction false} KeptFrom(chains: seq<Chain>, signatures: seq<string>, n: nat, i: nat) returns (k: nat)
    requires n <= |chains| && i < |Kept(chains, signatures, n)|
    ensures i <= k < n && Kept(chains, signatures, n)[i] == chains[k] && !(chains[k].signatures <= signatures)
    decreases n
  {
    if chains[n - 1].signatures <= signatures || i < |Kept(chains, signatures, n - 1)| {
      k := KeptFrom(chains, signatures, n - 1, i);
    } else {
      KeptShort(chains, signatures, n - 1);
      k := n - 1;
    }
  }

  lemma {:induction false} KeptShort(chains: seq<Chain>, signatures: seq<string>, n: nat)
    requires n <= |chains|
    ensures |Kept(chains, signatures, n)| <= n
  {
  }

  lemma {:induction false} KeptApart(chains: seq<Chain>, signatures: seq<string>, n: nat, i: nat, j: nat)
    requires n <= |chains| && Incomparable(chains) && i < j < |Kept(chains, signatures, n)|
    ensures var kept := Kept(chains, signatures, n);
      !(kept[i].signatures <= kept[j].signatures) && !(kept[j].signatures <= kept[i].signatures)
    decreases n
  {
    var k := KeptFrom(chains, signatures, n, j);
    if chains[n - 1].signatures <= signatures || j < |Kept(chains, signatures, n - 1)| {
      KeptApart(chains, signatures, n - 1, i, j);
    } else {
      var q := KeptFrom(chains, signatures, n - 1, i);
      assert q != n - 1;
    }
  }

  lemma {:induction false} ExtendsIff(left: seq<string>, right: seq<string>, n: nat)
    requires IsCommonPrefix(left, right, n)
    ensures n < |left| <==> !(left <= right)
  {
    assert left[..|left|] == left;
    if left <= right { LongestIsUnique(left, right, n, |left|); }
  }

  method DropExtended(chains: seq<Chain>, signatures: seq<string>) returns (kept: seq<Chain>)
    ensures kept == Kept(chains, signatures, |chains|)
  {
    kept := [];
    for i := 0 to |chains|
      invariant kept == Kept(chains, signatures, i)
    {
      var shared := CommonPrefix(chains[i].signatures, signatures);
      ExtendsIff(chains[i].signatures, signatures, shared);
      if shared < |chains[i].signatures| { kept := kept + [chains[i]]; }
    }
  }

  /** What `store` makes of the chains of a scope. */
  function Stored(chains: seq<Chain>, chain: Chain, limit: nat): (after: seq<Chain>) {
    var all := Kept(chains, chain.signatures, |chains|) + [chain];
    if |all| > limit then all[1..] else all
  }

  lemma {:induction false} StoredOk(scope: Hash, chains: seq<Chain>, chain: Chain, limit: nat)
    requires ScopeOk(scope, chains, limit) && IsPlain(scope, chain) && Uncovered(chains, chain.signatures)
    ensures ScopeOk(scope, Stored(chains, chain, limit), limit)
    ensures limit > 0 ==> chain in Stored(chains, chain, limit)
  {
    hide IsPlain;
    var kept := Kept(chains, chain.signatures, |chains|);
    var all := kept + [chain];
    forall i | 0 <= i < |all| ensures IsPlain(scope, all[i]) {
      if i < |kept| { var k := KeptFrom(chains, chain.signatures, |chains|, i); }
    }
    forall i, j | 0 <= i < |all| && 0 <= j < |all| && i != j ensures !(all[i].signatures <= all[j].signatures) {
      if i < |kept| && j < |kept| {
        if i < j { KeptApart(chains, chain.signatures, |chains|, i, j); } else { KeptApart(chains, chain.signatures, |chains|, j, i); }
      } else if i < |kept| {
        var k := KeptFrom(chains, chain.signatures, |chains|, i);
      } else {
        var k := KeptFrom(chains, chain.signatures, |chains|, j);
      }
    }
    assert all[|all| - 1] == chain;
    assert |all| > limit && limit > 0 ==> all[1..][|all| - 2] == chain;
  }

  // ----- reuse -----

  lemma {:induction false} PlainPrefix(a: seq<string>, b: seq<string>, scope: Hash, n: nat)
    requires n <= |a| && n <= |b| && a[..n] == b[..n]
    ensures PlainChain(a, scope, n) == PlainChain(b, scope, n)
    decreases n
  {
    if n > 0 {
      ShorterAgree(a, b, n, n - 1);
      PlainPrefix(a, b, scope, n - 1);
      ParentHashOfPrefix(a, b, scope, n - 1);
      assert a[n - 1] == a[..n][n - 1] && b[n - 1] == b[..n][n - 1];
    }
  }

  lemma {:induction false} PlainTake(signatures: seq<string>, scope: Hash, n: nat, k: nat)
    requires k <= n <= |signatures|
    ensures PlainChain(signatures, scope, n)[..k] == PlainChain(signatures, scope, k)
    decreases n
  {
    if k < n {
      PlainTake(signatures, scope, n - 1, k);
      assert PlainChain(signatures, scope, n)[..k] == PlainChain(signatures, scope, n - 1)[..k];
    }
  }

  /** The cached keys and parent hash up to `shared` are those of the new chain. */
  lemma {:induction false} Reused(scope: Hash, c: Chain, signatures: seq<string>, shared: nat)
    requires IsPlain(scope, c) && IsCommonPrefix(c.signatures, signatures, shared)
    ensures shared <= |c.keys| && shared <= |signatures| && c.keys[..shared] == PlainChain(signatures, scope, shared)
    ensures (if shared < |c.keys| then c.keys[shared].parent else c.parent) == ParentHash(signatures, scope, shared)
  {
    PlainTake(c.signatures, scope, |c.signatures|, shared);
    PlainPrefix(c.signatures, signatures, scope, shared);
    ParentHashOfPrefix(c.signatures, signatures, scope, shared);
    if shared < |c.keys| { ChainAt(c.signatures, scope, |c.signatures|, shared); }
  }

  // ----- the cache -----

  /** Scopes in dictionary order, each with its chains. */
  ghost predicate CacheOk(order: seq<Hash>, chains: map<Hash, seq<Chain>>, scopes: nat, limit: nat) {
    && NoRepeats(order) && |order| <= scopes
    && (forall s :: s in order <==> s in chains)
    && (forall s :: s in chains ==> ScopeOk(s, chains[s], limit))
  }

  lemma {:induction false} MovedOk(order: seq<Hash>, chains: map<Hash, seq<Chain>>, scopes: nat, limit: nat, scope: Hash)
    requires CacheOk(order, chains, scopes, limit) && scope in chains
    ensures CacheOk(Without(order, scope) + [scope], chains, scopes, limit)
  {
    hide ScopeOk, Without;
    WithoutDistinct(order, scope);
    forall x ensures x in Without(order, scope) <==> x in order && x != scope { WithoutMember(order, scope, x); }
  }

  lemma {:induction false} ReplacedOk(order: seq<Hash>, chains: map<Hash, seq<Chain>>, scopes: nat, limit: nat, scope: Hash, after: seq<Chain>)
    requires CacheOk(order, chains, scopes, limit) && scope in chains && ScopeOk(scope, after, limit)
    ensures CacheOk(order, chains[scope := after], scopes, limit)
  {
    hide ScopeOk;
  }

  lemma {:induction false} AddedOk(order: seq<Hash>, chains: map<Hash, seq<Chain>>, scopes: nat, limit: nat, scope: Hash, after: seq<Chain>)
    requires CacheOk(order, chains, scopes, limit) && scope !in chains && ScopeOk(scope, after, limit)
    ensures CacheOk(order + [scope], chains[scope := after], scopes + 1, limit)
  {
    hide ScopeOk;
  }

  lemma {:induction false} EvictedOk(order: seq<Hash>, chains: map<Hash, seq<Chain>>, scopes: nat, limit: nat)
    requires CacheOk(order, chains, scopes + 1, limit) && order != []
    ensures CacheOk(order[1..], chains - {order[0]}, scopes, limit)
  {
    hide ScopeOk;
    forall s ensures s in order[1..] <==> s in chains - {order[0]} {
      assert order == [order[0]] + order[1..];
    }
  }

  /** Dictionary order: least recently used scope first. */
  class ChainCache {
    const scopeLimit: nat
    const chainLimit: nat
    var order: seq<Hash>
    var chains: map<Hash, seq<Chain>>

    ghost predicate Valid()
      reads this
    {
      CacheOk(order, chains, scopeLimit, chainLimit)
    }

    constructor (scopes: nat, chainsPerScope: nat)
      ensures Valid() && scopeLimit == scopes && chainLimit == chainsPerScope && order == [] && chains == map[]
    {
      scopeLimit, chainLimit := scopes, chainsPerScope;
      order, chains := [], map[];
    }

    ghost function In(scope: Hash): seq<Chain>
      reads this
    {
      if scope in chains then chains[scope] else []
    }

    /** `longest`: the cached chain that shares most, if any shares something. */
    method Longest(scope: Hash, signatures: seq<string>) returns (best: nat, found: Option<Chain>)
      requires Valid()
      modifies this`order
      ensures Valid()
      ensures order == if In(scope) == [] then old(order) else Without(old(order), scope) + [scope]
      ensures found.None? ==> best == 0
      ensures found.Some? ==> found.value in In(scope) && best > 0 && IsCommonPrefix(found.value.signatures, signatures, best)
      ensures AllShareAtMost(In(scope), |In(scope)|, signatures, best)
    {
      hide CacheOk, Without, IsCommonPrefix, SharesAtMost;
      best, found := 0, None;
      if scope !in chains || chains[scope] == [] { return; }
      MoveToEnd(scope);
      var cached := chains[scope];
      for i := 0 to |cached|
        invariant Valid() && chains == old(chains) && order == Without(old(order), scope) + [scope]
        invariant found.None? ==> best == 0
        invariant found.Some? ==> found.value in cached && best > 0 && IsCommonPrefix(found.value.signatures, signatures, best)
        invariant AllShareAtMost(cached, i, signatures, best)
      {
        var shared := CommonPrefix(cached[i].signatures, signatures);
        SharesNoMore(cached[i].signatures, signatures, shared, Max(shared, best));
        forall k | 0 <= k < i ensures SharesAtMost(cached[k].signatures, signatures, Max(shared, best)) {
          SharesLess(cached[k].signatures, signatures, best, Max(shared, best));
        }
        if shared > best {
          best, found := shared, Some(cached[i]);
          if shared == |signatures| {
            AllIsMost(cached, signatures);
            break;
          }
        }
      }
    }

    method MoveToEnd(scope: Hash)
      requires Valid() && scope in chains
      modifies this`order
      ensures Valid() && order == Without(old(order), scope) + [scope]
    {
      hide CacheOk;
      MovedOk(order, chains, scopeLimit, chainLimit, scope);
      order := Without(order, scope) + [scope];
    }

    /** `store`: chains that the new one extends are dropped; the oldest scope and the oldest chain make room. */
    method Store(scope: Hash, chain: Chain)
      requires Valid() && IsPlain(scope, chain) && Uncovered(In(scope), chain.signatures)
      modifies this
      ensures Valid()
      ensures scopeLimit > 0 ==> In(scope) == Stored(old(In(scope)), chain, chainLimit) && order != [] && order[|order| - 1] == scope
      ensures forall s :: s != scope && s in chains ==> s in old(chains) && chains[s] == old(chains[s])
    {
      hide CacheOk, IsPlain, Uncovered, ScopeOk, Kept, Without;
      ScopeIn(scope);
      StoredOk(scope, In(scope), chain, chainLimit);
      var here := if scope in chains then chains[scope] else [];
      var after := DropExtended(here, chain.signatures);
      after := after + [chain];
      if |after| > chainLimit { after := after[1..]; }
      if scope in chains {
        MoveToEnd(scope);
        ReplacedOk(order, chains, scopeLimit, chainLimit, scope, after);
        chains := chains[scope := after];
      } else {
        AddedOk(order, chains, scopeLimit, chainLimit, scope, after);
        order, chains := order + [scope], chains[scope := after];
        if |order| > scopeLimit {
          EvictedOk(order, chains, scopeLimit, chainLimit);
          OldestDiffers(order, chains, scopeLimit + 1, chainLimit);
          order, chains := order[1..], chains - {order[0]};
        } else {
          StillWithin(order, chains, scopeLimit, chainLimit);
        }
      }
    }

    /**
      `build_prefix_keys` returns the plain chain whatever the cache holds, and remembers it: as long as
      the limits allow anything at all, some chain of the scope then begins with these signatures.
     */
    method BuildPrefixKeys(signatures: seq<string>, model: string, salt: Option<string>, group: Option<string>) returns (keys: seq<Key>)
      requires Valid()
      modifies this
      ensures Valid()
      ensures keys == PlainChain(signatures, Extra(model, salt, group), |signatures|)
      ensures signatures != [] && scopeLimit > 0 && chainLimit > 0 ==> !Uncovered(In(Extra(model, salt, group)), signatures)
    {
      hide CacheOk, Uncovered, Stored, IsCommonPrefix, AllShareAtMost;
      var scope := Extra(model, salt, group);
      if signatures == [] { return []; }
      var shared, found := Longest(scope, signatures);
      var parent := Root(scope);
      keys := [];
      if found.Some? {
        var cached := found.value.keys;
        ScopeIn(scope);
        Reused(scope, found.value, signatures, shared);
        keys := cached[..shared];
        parent := if shared < |cached| then cached[shared].parent else found.value.parent;
      }
      if shared < |signatures| {
        for i := shared to |signatures|
          invariant keys == PlainChain(signatures, scope, i) && parent == ParentHash(signatures, scope, i)
        {
          keys := keys + [Key(parent, signatures[i], scope)];
          parent := Link(parent, signatures[i], scope);
        }
        NothingLonger(In(scope), signatures, shared);
        StoredCovers(In(scope), Chain(signatures, keys, parent), chainLimit);
        Store(scope, Chain(signatures, keys, parent));
      } else {
        Covers(In(scope), found.value, signatures, shared);
      }
    }

    lemma {:induction false} ScopeIn(scope: Hash)
      requires Valid()
      ensures ScopeOk(scope, In(scope), chainLimit)
    {
    }
  }

  lemma {:induction false} OldestDiffers(order: seq<Hash>, chains: map<Hash, seq<Chain>>, scopes: nat, limit: nat)
    requires CacheOk(order, chains, scopes, limit)
    ensures |order| >= 2 ==> order[0] != order[|order| - 1]
  {
  }

  lemma {:induction false} StillWithin(order: seq<Hash>, chains: map<Hash, seq<Chain>>, scopes: nat, limit: nat)
    requires CacheOk(order, chains, scopes + 1, limit) && |order| <= scopes
    ensures CacheOk(order, chains, scopes, limit)
  {
  }

  lemma {:induction false} AllIsMost(chains: seq<Chain>, signatures: seq<string>)
    ensures AllShareAtMost(chains, |chains|, signatures, |signatures|)
  {
  }

  lemma {:induction false} Covers(chains: seq<Chain>, c: Chain, signatures: seq<string>, shared: nat)
    requires c in chains && IsCommonPrefix(c.signatures, signatures, shared) && shared >= |signatures|
    ensures !Uncovered(chains, signatures)
  {
    assert signatures[..|signatures|] == signatures;
    assert signatures <= c.signatures;
  }

  lemma {:induction false} StoredCovers(chains: seq<Chain>, chain: Chain, limit: nat)
    ensures limit > 0 ==> !Uncovered(Stored(chains, chain, limit), chain.signatures)
  {
    var all := Kept(chains, chain.signatures, |chains|) + [chain];
    var after := Stored(chains, chain, limit);
    if limit > 0 { assert after[|after| - 1] == chain && chain.signatures <= chain.signatures; }
  }

  /** If no cached chain shares more than `shared`, none has all of a longer list in front. */
  lemma {:induction false} NothingLonger(chains: seq<Chain>, signatures: seq<string>, shared: nat)
    requires shared < |signatures|
    requires AllShareAtMost(chains, |chains|, signatures, shared)
    ensures Uncovered(chains, signatures)
  {
    forall i | 0 <= i < |chains| ensures !(signatures <= chains[i].signatures) {
      assert SharesAtMost(chains[i].signatures, signatures, shared);
    }
  }

  // ----- the memo of a live request -----

  /** `_input_keys_cache`: the keys of each live request, built once. */
  class InputKeyMemo {
    const blockSize: nat
    const cache: ChainCache
    var memo: map<RequestId, seq<Key>>

    constructor (blockSize: nat, cache: ChainCache)
      ensures memo == map[] && this.blockSize == blockSize && this.cache == cache
    {
      this.blockSize, this.cache, memo := blockSize, cache, map[];
    }

    /** Every remembered request has the keys of its prompt. */
    ghost predicate Remembers(prompts: RequestId -> Prompt)
      reads this
    {
      forall id :: id in memo ==> memo[id] == RequestKeys(blockSize, prompts(id))
    }

    /** `_build_input_keys` gives the plain keys of the prompt as long as nobody reuses the id of a remembered request. */
    method InputKeys(id: RequestId, prompt: Prompt, model: string, salt: Option<string>, group: Option<string>, ghost prompts: RequestId -> Prompt)
      returns (keys: seq<Key>)
      requires cache.Valid() && Remembers(prompts) && prompts(id) == prompt && prompt.scope == Extra(model, salt, group)
      modifies this, cache
      ensures cache.Valid() && Remembers(prompts)
      ensures keys == RequestKeys(blockSize, prompt)
    {
      var signatures := InputSignatures(blockSize, prompt);
      if prompt.hashIds == [] { return []; }
      if id in memo && |memo[id]| == FullInputBlocks(blockSize, prompt) { return memo[id]; }
      keys := cache.BuildPrefixKeys(signatures, model, salt, group);
      memo := memo[id := keys];
    }

    method Forget(id: RequestId, ghost prompts: RequestId -> Prompt)
      requires Remembers(prompts)
      modifies this`memo
      ensures Remembers(prompts) && memo == old(memo) - {id}
    {
      memo := memo - {id};
    }
  }
}
