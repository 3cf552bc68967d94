/** The constant-time pair counts of attention, and the sums they stand for. */
module AttentionPairs {
  import opened Common

  // ----- what is counted -----

  /** Keys that query `i` of `queries` sees through a window of `limit`, summed over the first `n` queries. */
  function WindowPairs(prefix: int, limit: int, n: nat): int {
    if n == 0 then 0 else WindowPairs(prefix, limit, n - 1) + Min(prefix + n, limit)
  }

  /** The sum of `j / divisor` over all `j` up to `n`. */
  function Floors(n: nat, divisor: nat): nat
    requires divisor > 0
  {
    n / divisor + if n == 0 then 0 else Floors(n - 1, divisor)
  }

  /** Compressed keys that the first `n` queries see, at most `limit` each. */
  function CompressedPairs(prefix: nat, ratio: nat, limit: nat, n: nat): nat
    requires ratio > 0
  {
    if n == 0 then 0 else CompressedPairs(prefix, ratio, limit, n - 1) + Min((prefix + n) / ratio, limit)
  }

  // ----- how it is counted -----

  /** `causal_limited_pairs`. */
  function CausalLimitedPairs(batch: int, queries: int, prefix: int, limit: int): int {
    if queries <= 0 || limit <= 0 then 0
    else
      var ramp := Min(queries, Max(0, limit - prefix));
      batch * (ramp * prefix + ramp * (ramp + 1) / 2 + (queries - ramp) * limit)
  }

  /** `_sum_floor`. */
  function SumFloor(n: int, divisor: nat): int
    requires divisor > 0
  {
    if n < 0 then 0
    else
      var quotient, remainder := n / divisor, n % divisor;
      divisor * quotient * (quotient - 1) / 2 + quotient * (remainder + 1)
  }

  /** `compressed_context_pairs`. */
  function CompressedContextPairs(batch: int, queries: int, prefix: int, ratio: int, limit: int): int {
    if queries <= 0 || ratio <= 0 || limit <= 0 then 0
    else
      var rampEnd := Min(prefix + queries, limit * ratio - 1);
      var rampQueries := Max(0, rampEnd - prefix);
      var ramp := if rampQueries != 0 then SumFloor(rampEnd, ratio) - SumFloor(prefix, ratio) else 0;
      batch * (ramp + (queries - rampQueries) * limit)
  }

  // ----- triangles -----

  function Triangle(n: nat): nat {
    if n == 0 then 0 else Triangle(n - 1) + n
  }

  lemma {:induction false} TriangleIs(n: nat)
    ensures n * (n + 1) == 2 * Triangle(n)
    decreases n
  {
    if n > 0 {
      TriangleIs(n - 1);
      assert n * (n + 1) == (n - 1) * n + 2 * n;
    }
  }

  // ----- the window -----

  /** The closed form before multiplying by the batch. */
  function WindowForm(prefix: int, limit: int, n: nat): int {
    var ramp := Min(n, Max(0, limit - prefix));
    ramp * prefix + Triangle(ramp) + (n - ramp) * limit
  }

  lemma {:induction false} Step(a: int, b: int)
    ensures (a + 1) * b == a * b + b
  {
  }

  lemma {:induction false} WindowStep(prefix: int, limit: int, n: nat)
    requires n > 0
    ensures WindowForm(prefix, limit, n) == WindowForm(prefix, limit, n - 1) + Min(prefix + n, limit)
  {
    var ramp := Min(n - 1, Max(0, limit - prefix));
    if n <= limit - prefix {
      assert Min(n, Max(0, limit - prefix)) == n && ramp == n - 1;
      Step(n - 1, prefix);
    } else {
      assert Min(n, Max(0, limit - prefix)) == ramp;
      Step(n - 1 - ramp, limit);
    }
  }

  lemma {:induction false} WindowFormIs(prefix: int, limit: int, n: nat)
    ensures WindowForm(prefix, limit, n) == WindowPairs(prefix, limit, n)
    decreases n
  {
    hide WindowForm;
    if n > 0 {
      WindowFormIs(prefix, limit, n - 1);
      WindowStep(prefix, limit, n);
    } else {
      WindowNone(prefix, limit);
    }
  }

  lemma {:induction false} WindowNone(prefix: int, limit: int)
    ensures WindowForm(prefix, limit, 0) == 0
  {
  }

  /** For every window the constant-time form is the sum over the queries; a window of no size counts nothing. */
  lemma {:induction false} CausalPairsAreWindowed(batch: int, queries: nat, prefix: int, limit: int)
    ensures limit > 0 ==> CausalLimitedPairs(batch, queries, prefix, limit) == batch * WindowPairs(prefix, limit, queries)
    ensures limit <= 0 ==> CausalLimitedPairs(batch, queries, prefix, limit) == 0
  {
    if limit > 0 {
      WindowFormIs(prefix, limit, queries);
      var ramp := Min(queries, Max(0, limit - prefix));
      TriangleIs(ramp);
      assert ramp * (ramp + 1) / 2 == Triangle(ramp);
    }
  }

  // ----- floors -----

  /** The closed form by quotient and remainder. */
  function FloorForm(divisor: nat, quotient: nat, remainder: nat): int {
    divisor * (Triangle(quotient) - quotient) + quotient * (remainder + 1)
  }

  lemma {:induction false} FloorStepInside(divisor: nat, quotient: nat, remainder: nat)
    ensures FloorForm(divisor, quotient, remainder + 1) == FloorForm(divisor, quotient, remainder) + quotient
  {
    Step(remainder + 1, quotient);
  }

  lemma {:induction false} FloorStepOver(divisor: nat, quotient: nat)
    requires divisor > 0
    ensures FloorForm(divisor, quotient + 1, 0) == FloorForm(divisor, quotient, divisor - 1) + quotient + 1
  {
    assert Triangle(quotient + 1) - (quotient + 1) == Triangle(quotient);
    assert divisor * Triangle(quotient) == divisor * (Triangle(quotient) - quotient) + divisor * quotient;
  }

  lemma {:induction false} NextQuotient(n: nat, divisor: nat)
    requires divisor > 0 && n > 0
    ensures if n % divisor == 0 then n / divisor == (n - 1) / divisor + 1 && (n - 1) % divisor == divisor - 1
            else n / divisor == (n - 1) / divisor && n % divisor == (n - 1) % divisor + 1
  {
    var q, r := (n - 1) / divisor, (n - 1) % divisor;
    assert n == q * divisor + r + 1;
    if r + 1 == divisor {
      Step(q, divisor);
      ShardOf(n, q + 1, divisor);
    } else {
      ShardOf(n, q, divisor);
    }
  }

  lemma {:induction false} FloorFormIs(n: nat, divisor: nat)
    requires divisor > 0
    ensures FloorForm(divisor, n / divisor, n % divisor) == Floors(n, divisor)
    decreases n
  {
    hide FloorForm;
    if n == 0 {
      FloorNone(divisor);
    } else {
      FloorFormIs(n - 1, divisor);
      NextQuotient(n, divisor);
      if n % divisor == 0 {
        FloorStepOver(divisor, (n - 1) / divisor);
      } else {
        FloorStepInside(divisor, n / divisor, (n - 1) % divisor);
      }
    }
  }

  lemma {:induction false} FloorNone(divisor: nat)
    requires divisor > 0
    ensures FloorForm(divisor, 0 / divisor, 0 % divisor) == 0
  {
  }

  lemma {:induction false} HalfProduct(divisor: nat, quotient: nat)
    ensures divisor * quotient * (quotient - 1) / 2 == divisor * (Triangle(quotient) - quotient)
  {
    TriangleIs(quotient);
    var t := Triangle(quotient) - quotient;
    assert quotient * (quotient - 1) == 2 * t by { assert quotient * (quotient + 1) == quotient * (quotient - 1) + 2 * quotient; }
    assert divisor * quotient * (quotient - 1) == divisor * (quotient * (quotient - 1));
    assert divisor * (2 * t) == 2 * (divisor * t);
  }

  lemma {:induction false} SumFloorIsFloors(n: nat, divisor: nat)
    requires divisor > 0
    ensures SumFloor(n, divisor) == Floors(n, divisor)
  {
    FloorFormIs(n, divisor);
    HalfProduct(divisor, n / divisor);
  }

  // ----- compressed keys -----

  function RampEnd(prefix: nat, ratio: nat, limit: nat, n: nat): int {
    Min(prefix + n, limit * ratio - 1)
  }

  /** The closed form before multiplying by the batch. */
  function CompressedForm(prefix: nat, ratio: nat, limit: nat, n: nat): int
    requires ratio > 0 && limit > 0
  {
    var end := RampEnd(prefix, ratio, limit, n);
    var ramped := Max(0, end - prefix);
    (if ramped != 0 then Floors(end, ratio) - Floors(prefix, ratio) else 0) + (n - ramped) * limit
  }

  lemma {:induction false} BelowLimit(j: nat, ratio: nat, limit: nat)
    requires ratio > 0
    ensures j < limit * ratio <==> j / ratio < limit
  {
    var q := j / ratio;
    ShardOf(j, q, ratio);
    if q < limit { MulMono(q + 1, limit, ratio); } else { MulMono(limit, q, ratio); }
  }

  lemma {:induction false} CompressedStep(prefix: nat, ratio: nat, limit: nat, n: nat)
    requires ratio > 0 && limit > 0 && n > 0
    ensures CompressedForm(prefix, ratio, limit, n) == CompressedForm(prefix, ratio, limit, n - 1) + Min((prefix + n) / ratio, limit)
  {
    BelowLimit(prefix + n, ratio, limit);
    MulMono(1, limit, ratio);
    var before, after := RampEnd(prefix, ratio, limit, n - 1), RampEnd(prefix, ratio, limit, n);
    if prefix + n < limit * ratio {
      assert after == prefix + n && before == prefix + n - 1;
    } else {
      assert after == before;
      Step(n - 1 - Max(0, after - prefix), limit);
    }
  }

  lemma {:induction false} CompressedFormIs(prefix: nat, ratio: nat, limit: nat, n: nat)
    requires ratio > 0 && limit > 0
    ensures CompressedForm(prefix, ratio, limit, n) == CompressedPairs(prefix, ratio, limit, n)
    decreases n
  {
    hide CompressedForm;
    if n > 0 {
      CompressedFormIs(prefix, ratio, limit, n - 1);
      CompressedStep(prefix, ratio, limit, n);
    } else {
      CompressedNone(prefix, ratio, limit);
    }
  }

  lemma {:induction false} CompressedNone(prefix: nat, ratio: nat, limit: nat)
    requires ratio > 0 && limit > 0
    ensures CompressedForm(prefix, ratio, limit, 0) == 0
  {
    assert RampEnd(prefix, ratio, limit, 0) <= prefix;
  }

  /** For every ratio and limit the constant-time form is the sum over the queries. */
  lemma {:induction false} ContextPairsAreCompressed(batch: int, queries: nat, prefix: nat, ratio: nat, limit: nat)
    requires ratio > 0
    ensures CompressedContextPairs(batch, queries, prefix, ratio, limit) == batch * CompressedPairs(prefix, ratio, limit, queries)
  {
    hide Floors, SumFloor;
    if limit == 0 {
      NoCompressed(prefix, ratio, queries);
    } else {
      CompressedFormIs(prefix, ratio, limit, queries);
      var end := RampEnd(prefix, ratio, limit, queries);
      SumFloorIsFloors(prefix, ratio);
      if end > prefix { SumFloorIsFloors(end, ratio); }
    }
  }

  lemma {:induction false} NoCompressed(prefix: nat, ratio: nat, n: nat)
    requires ratio > 0
    ensures CompressedPairs(prefix, ratio, 0, n) == 0
    decreases n
  {
    if n > 0 { NoCompressed(prefix, ratio, n - 1); }
  }
}
