/** Dealing routes one at a time around a circle of experts. */
module ExpertDealing {
  import opened Common

  function Next(size: nat, place: nat): nat
    requires place < size
  {
    if place + 1 == size then 0 else place + 1
  }

  /** The place after `n` steps. */
  function After(size: nat, place: nat, n: nat): (end: nat)
    requires place < size
    ensures end < size
    decreases n
  {
    if n == 0 then place else After(size, Next(size, place), n - 1)
  }

  /** How many of `n` routes dealt from `place` on land on `target`. */
  function Dealt(size: nat, place: nat, n: nat, target: nat): nat
    requires place < size
    decreases n
  {
    if n == 0 then 0 else (if place == target then 1 else 0) + Dealt(size, Next(size, place), n - 1, target)
  }

  // ----- one batch after the other -----

  lemma {:induction false} AfterTwice(size: nat, place: nat, a: nat, b: nat)
    requires place < size
    ensures After(size, place, a + b) == After(size, After(size, place, a), b)
    decreases a
  {
    if a > 0 { AfterTwice(size, Next(size, place), a - 1, b); }
  }

  lemma {:induction false} DealtTwice(size: nat, place: nat, a: nat, b: nat, target: nat)
    requires place < size
    ensures Dealt(size, place, a + b, target) == Dealt(size, place, a, target) + Dealt(size, After(size, place, a), b, target)
    decreases a
  {
    if a > 0 { DealtTwice(size, Next(size, place), a - 1, b, target); }
  }

  // ----- up to the end of the circle -----

  lemma {:induction false} StraightOn(size: nat, place: nat, n: nat, target: nat)
    requires place < size && place + n <= size
    ensures Dealt(size, place, n, target) == if place <= target < place + n then 1 else 0
    ensures After(size, place, n) == if place + n == size then 0 else place + n
    decreases n
  {
    if n > 0 && place + 1 < size { StraightOn(size, place + 1, n - 1, target); }
  }

  /** A whole round gives everybody one route and ends where it began. */
  lemma {:induction false} WholeRound(size: nat, place: nat, target: nat)
    requires place < size && target < size
    ensures Dealt(size, place, size, target) == 1 && After(size, place, size) == place
  {
    StraightOn(size, place, size - place, target);
    DealtTwice(size, place, size - place, place, target);
    AfterTwice(size, place, size - place, place);
    StraightOn(size, 0, place, target);
  }

  /** Part of a round: the places passed get one route, the others none. */
  lemma {:induction false} PartOfRound(size: nat, place: nat, n: nat, target: nat)
    requires place < size && n <= size && target < size
    ensures Dealt(size, place, n, target) <= 1
    ensures Dealt(size, place, n, target) == 1 <==> exists k :: 0 <= k < n && After(size, place, k) == target
    decreases n
  {
    if n > 0 {
      DealtTwice(size, place, n - 1, 1, target);
      PartOfRound(size, place, n - 1, target);
      WholeRound(size, place, target);
      DealtTwice(size, place, n, size - n, target);
      var last := After(size, place, n - 1);
      assert Dealt(size, last, 1, target) == if last == target then 1 else 0;
    }
  }

  /** Whole rounds and the rest. */
  lemma {:induction false} Rounds(size: nat, place: nat, rounds: nat, rest: nat, n: nat, target: nat)
    requires place < size && target < size && n == rounds * size + rest
    ensures Dealt(size, place, n, target) == rounds + Dealt(size, place, rest, target)
    decreases rounds
  {
    if rounds > 0 {
      assert rounds * size == (rounds - 1) * size + size;
      MulNonNegative(rounds - 1, size);
      Rounds(size, place, rounds - 1, rest, n - size, target);
      DealtTwice(size, place, size, n - size, target);
      WholeRound(size, place, target);
    }
  }

  /** However many routes are dealt, no two places differ by more than one. */
  lemma {:induction false} DealtEvenly(size: nat, place: nat, n: nat, a: nat, b: nat)
    requires place < size && a < size && b < size
    ensures Dealt(size, place, n, a) <= Dealt(size, place, n, b) + 1
  {
    var rounds, rest := n / size, n % size;
    Rounds(size, place, rounds, rest, n, a);
    Rounds(size, place, rounds, rest, n, b);
    PartOfRound(size, place, rest, a);
    PartOfRound(size, place, rest, b);
  }

  lemma {:induction false} AfterModulo(size: nat, place: nat, n: nat)
    requires place < size
    ensures After(size, place, n) == (place + n) % size
    decreases n
  {
    if n > 0 {
      AfterModulo(size, Next(size, place), n - 1);
      Wrapped(size, place, n);
    }
  }

  lemma {:induction false} Wrapped(size: nat, place: nat, n: nat)
    requires place < size && n > 0
    ensures (Next(size, place) + (n - 1)) % size == (place + n) % size
  {
    if place + 1 == size { AddRound(n - 1, size); }
  }

  lemma {:induction false} AddRound(a: nat, size: nat)
    requires size > 0
    ensures (a + size) % size == a % size
  {
    var q, r := a / size, a % size;
    assert a + size == (q + 1) * size + r;
    ShardOf(a + size, q + 1, size);
  }

  // ----- circles within circles -----

  /** The routes on the places `member`, `member + ranks`, … of the first `n` rows. */
  function DealtToRank(size: nat, place: nat, routes: nat, ranks: nat, member: nat, n: nat): nat
    requires place < size
  {
    if n == 0 then 0
    else
      MulNonNegative(n - 1, ranks);
      DealtToRank(size, place, routes, ranks, member, n - 1) + Dealt(size, place, routes, (n - 1) * ranks + member)
  }

  /** How many of the first `n` rows have `place` in column `member`. */
  function RowsAt(place: nat, ranks: nat, member: nat, n: nat): nat {
    if n == 0 then 0 else RowsAt(place, ranks, member, n - 1) + (if place == (n - 1) * ranks + member then 1 else 0)
  }

  lemma {:induction false} RowsAtIs(place: nat, ranks: nat, member: nat, n: nat)
    requires member < ranks
    ensures RowsAt(place, ranks, member, n) == if place % ranks == member && place / ranks < n then 1 else 0
    decreases n
  {
    if n > 0 {
      RowsAtIs(place, ranks, member, n - 1);
      ShardOf(place, n - 1, ranks);
      var q, r := place / ranks, place % ranks;
      assert place == q * ranks + r;
    }
  }

  lemma {:induction false} RankStep(size: nat, place: nat, routes: nat, ranks: nat, member: nat, n: nat)
    requires place < size && routes > 0
    ensures DealtToRank(size, place, routes, ranks, member, n) ==
            RowsAt(place, ranks, member, n) + DealtToRank(size, Next(size, place), routes - 1, ranks, member, n)
    decreases n
  {
    if n > 0 { RankStep(size, place, routes, ranks, member, n - 1); }
  }

  lemma {:induction false} RankNone(size: nat, place: nat, ranks: nat, member: nat, n: nat)
    requires place < size
    ensures DealtToRank(size, place, 0, ranks, member, n) == 0
    decreases n
  {
    if n > 0 { RankNone(size, place, ranks, member, n - 1); }
  }

  /** Dealing around all experts deals around the ranks. */
  lemma {:induction false} DealtAroundRanks(size: nat, place: nat, routes: nat, ranks: nat, member: nat, rows: nat)
    requires ranks > 0 && size == rows * ranks && place < size && member < ranks
    ensures DealtToRank(size, place, routes, ranks, member, rows) == Dealt(ranks, place % ranks, routes, member)
    decreases routes
  {
    if routes == 0 {
      RankNone(size, place, ranks, member, rows);
    } else {
      RankStep(size, place, routes, ranks, member, rows);
      RowsAtIs(place, ranks, member, rows);
      InsideRows(place, ranks, rows);
      DealtAroundRanks(size, Next(size, place), routes - 1, ranks, member, rows);
      NextColumn(size, place, ranks, rows);
    }
  }

  lemma {:induction false} InsideRows(place: nat, ranks: nat, rows: nat)
    requires ranks > 0 && place < rows * ranks
    ensures place / ranks < rows
  {
    var q := place / ranks;
    assert q * ranks <= place;
    if q >= rows { MulMono(rows, q, ranks); }
  }

  lemma {:induction false} NextColumn(size: nat, place: nat, ranks: nat, rows: nat)
    requires ranks > 0 && size == rows * ranks && place < size
    ensures Next(size, place) % ranks == Next(ranks, place % ranks)
  {
    var q, r := place / ranks, place % ranks;
    assert place == q * ranks + r;
    if r + 1 == ranks {
      assert place + 1 == (q + 1) * ranks;
      ShardOf(place + 1, q + 1, ranks);
    } else {
      ShardOf(place + 1, q, ranks);
      if place + 1 == size {
        ShardOf(place + 1, rows, ranks);
      }
    }
  }
}
