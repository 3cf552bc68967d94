/** Small datatypes shared by every part of the model. */
module Common {

  datatype Option<+T> = None | Some(value: T)

  /** The exception classes of the simulator that the modelled code raises. */
  datatype Error = ConfigurationError | SimulationStateError | OutOfBlocksError | WorkloadValidationError

  datatype Result<+T> = Ok(value: T) | Err(error: Error)

  function Min(a: int, b: int): int { if a <= b then a else b }

  function Max(a: int, b: int): int { if a >= b then a else b }

  function Later(a: real, b: real): real { if a >= b then a else b }

  predicate Distinct<T(==)>(s: seq<T>) {
    s == [] || (s[|s| - 1] !in s[..|s| - 1] && Distinct(s[..|s| - 1]))
  }

  lemma {:induction false} DistinctAt<T>(s: seq<T>, i: nat, j: nat)
    requires Distinct(s) && i < |s| && j < |s| && s[i] == s[j]
    ensures i == j
  {
    var last := |s| - 1;
    if i < last && j < last {
      DistinctAt(s[..last], i, j);
    }
  }

  lemma {:induction false} DistinctIf<T>(s: seq<T>)
    requires forall i, j :: 0 <= i < j < |s| ==> s[i] != s[j]
    ensures Distinct(s)
  {
    if s != [] { DistinctIf(s[..|s| - 1]); }
  }

  /** No two places hold the same element. */
  ghost predicate NoRepeats<T>(s: seq<T>) {
    forall i, j :: 0 <= i < j < |s| ==> s[i] != s[j]
  }

  /** `s` with every `x` taken out. */
  function Without<T(==)>(s: seq<T>, x: T): seq<T> {
    if s == [] then [] else if s[0] == x then Without(s[1..], x) else [s[0]] + Without(s[1..], x)
  }

  lemma {:induction false} WithoutAbsent<T>(s: seq<T>, x: T)
    requires x !in s
    ensures Without(s, x) == s
    decreases |s|
  {
    if s != [] { WithoutAbsent(s[1..], x); }
  }

  lemma {:induction false} WithoutMember<T>(s: seq<T>, x: T, y: T)
    ensures y in Without(s, x) <==> y in s && y != x
    decreases |s|
  {
    if s != [] {
      WithoutMember(s[1..], x, y);
      assert s == [s[0]] + s[1..];
    }
  }

  lemma {:induction false} WithoutDistinct<T>(s: seq<T>, x: T)
    requires NoRepeats(s)
    ensures NoRepeats(Without(s, x)) && |Without(s, x)| == |s| - (if x in s then 1 else 0)
    decreases |s|
  {
    if s != [] {
      var rest := s[1..];
      WithoutDistinct(rest, x);
      assert s == [s[0]] + rest;
      assert s[0] !in rest;
      if s[0] == x {
        WithoutAbsent(rest, x);
      } else {
        WithoutMember(rest, x, s[0]);
      }
    }
  }

  lemma {:induction false} WithoutConcat<T>(a: seq<T>, b: seq<T>, x: T)
    ensures Without(a + b, x) == Without(a, x) + Without(b, x)
    decreases |a|
  {
    if a == [] {
      assert a + b == b;
    } else {
      assert (a + b)[1..] == a[1..] + b;
      WithoutConcat(a[1..], b, x);
    }
  }

  lemma {:induction false} WithoutCount<T>(s: seq<T>, x: T, y: T)
    ensures multiset(Without(s, x))[y] == if y == x then 0 else multiset(s)[y]
    decreases |s|
  {
    if s != [] {
      WithoutCount(s[1..], x, y);
      assert s == [s[0]] + s[1..];
    }
  }

  /** Floor division, by repeated subtraction. */
  function Div(a: nat, b: nat): nat
    requires b > 0
  {
    if a < b then 0 else 1 + Div(a - b, b)
  }

  lemma {:induction false} DivBounds(a: nat, b: nat)
    requires b > 0
    ensures Div(a, b) * b <= a < Div(a, b) * b + b
  {
    if a >= b {
      DivBounds(a - b, b);
      var q := Div(a - b, b);
      assert (q + 1) * b == q * b + b;
    }
  }

  lemma {:induction false} DivIsQuotient(a: nat, b: nat)
    requires b > 0
    ensures Div(a, b) == a / b
  {
    DivBounds(a, b);
    ShardOf(a, Div(a, b), b);
  }

  lemma {:induction false} DivExact(n: nat, b: nat)
    requires b > 0
    ensures 0 <= n * b && Div(n * b, b) == n
    decreases n
  {
    if n > 0 {
      DivExact(n - 1, b);
      assert n * b == (n - 1) * b + b;
    }
  }

  lemma {:induction false} MulMono(a: int, b: int, c: int)
    requires a <= b && 0 <= c
    ensures a * c <= b * c
  {
    assert 0 <= (b - a) * c;
  }

  lemma {:induction false} MulNonNegative(a: int, b: int)
    requires 0 <= a && 0 <= b
    ensures 0 <= a * b
  {
    MulMono(0, a, b);
  }

  /** `p` lies in shard `k` of width `chunk` exactly when `p / chunk` is `k`. */
  lemma {:induction false} ShardOf(p: nat, k: nat, chunk: nat)
    requires chunk > 0
    ensures k * chunk <= p < k * chunk + chunk <==> p / chunk == k
  {
    var q := p / chunk;
    assert q * chunk <= p < q * chunk + chunk;
    if q < k { MulMono(q + 1, k, chunk); } else if q > k { MulMono(k + 1, q, chunk); }
  }
}
