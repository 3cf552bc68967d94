/**
  Prefix cache keys.  A key names one full block of a prompt together with everything before it: it
  holds the hash of its predecessors, so equal keys mean equal leading blocks in the same scope.
  Hashes are constructors, that is, free of collisions.
 */
module PrefixKeys {
  import opened Common

  datatype Hash =
    | Extra(model: string, salt: Option<string>, group: Option<string>)
    | Root(scope: Hash)
    | Link(parent: Hash, signature: string, scope: Hash)

  datatype Key = Key(parent: Hash, signature: string, scope: Hash)

  /** The parent hash of block `n`, made from the blocks before it. */
  function ParentHash(signatures: seq<string>, scope: Hash, n: nat): Hash
    requires n <= |signatures|
  {
    if n == 0 then Root(scope) else Link(ParentHash(signatures, scope, n - 1), signatures[n - 1], scope)
  }

  function KeyAt(signatures: seq<string>, scope: Hash, k: nat): Key
    requires k < |signatures|
  {
    Key(ParentHash(signatures, scope, k), signatures[k], scope)
  }

  /** The plain chain: one key per block. */
  function PlainChain(signatures: seq<string>, scope: Hash, n: nat): (keys: seq<Key>)
    requires n <= |signatures|
    ensures |keys| == n
  {
    if n == 0 then [] else PlainChain(signatures, scope, n - 1) + [KeyAt(signatures, scope, n - 1)]
  }

  lemma {:induction false} ChainAt(signatures: seq<string>, scope: Hash, n: nat, k: nat)
    requires k < n <= |signatures|
    ensures PlainChain(signatures, scope, n)[k] == KeyAt(signatures, scope, k)
    decreases n
  {
    if k < n - 1 { ChainAt(signatures, scope, n - 1, k); }
  }

  lemma {:induction false} ParentHashInjective(a: seq<string>, x: Hash, m: nat, b: seq<string>, y: Hash, n: nat)
    requires m <= |a| && n <= |b| && ParentHash(a, x, m) == ParentHash(b, y, n)
    ensures m == n && x == y && a[..m] == b[..n]
    decreases m
  {
    if m > 0 {
      ParentHashInjective(a, x, m - 1, b, y, n - 1);
      assert a[..m] == a[..m - 1] + [a[m - 1]];
      assert b[..n] == b[..n - 1] + [b[n - 1]];
    }
  }

  /** Equal keys stand for the same place in the same leading blocks of the same scope. */
  lemma {:induction false} KeyInjective(a: seq<string>, x: Hash, i: nat, b: seq<string>, y: Hash, k: nat)
    requires i < |a| && k < |b| && KeyAt(a, x, i) == KeyAt(b, y, k)
    ensures i == k && x == y && a[..i + 1] == b[..k + 1]
  {
    ParentHashInjective(a, x, i, b, y, k);
    assert a[..i + 1] == a[..i] + [a[i]];
    assert b[..k + 1] == b[..k] + [b[k]];
  }

  /** A key depends only on the leading blocks and the scope. */
  lemma {:induction false} ParentHashOfPrefix(a: seq<string>, b: seq<string>, scope: Hash, n: nat)
    requires n <= |a| && n <= |b| && a[..n] == b[..n]
    ensures ParentHash(a, scope, n) == ParentHash(b, scope, n)
    decreases n
  {
    if n > 0 {
      assert a[..n - 1] == a[..n][..n - 1] && b[..n - 1] == b[..n][..n - 1];
      assert a[n - 1] == a[..n][n - 1] && b[n - 1] == b[..n][n - 1];
      ParentHashOfPrefix(a, b, scope, n - 1);
    }
  }
}
