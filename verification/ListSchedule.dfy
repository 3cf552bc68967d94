/**
  First-come first-served placement on shared resources: each item starts as soon as it is ready and
  its resources are free.  Both the messages inside a phase and the phases of a plan are placed this way.
 */
module ListSchedule {
  import opened Common

  /** The communication budgets of a node: its local fabric and its inter-node sender and receiver. */
  datatype Resource = LocalFabric(node: int) | InterTx(node: int) | InterRx(node: int)

  datatype Placed<T> = Placed(item: T, resources: seq<Resource>, ready: real, start: real, end: real)

  /** When `key` becomes free after the first `n` items: the end of its last user. */
  function Available<T>(done: seq<Placed<T>>, n: nat, key: Resource): real
    requires n <= |done|
  {
    if n == 0 then 0.0 else if key in done[n - 1].resources then done[n - 1].end else Available(done, n - 1, key)
  }

  /** The later of `ready` and the times at which the first `m` resources become free. */
  function Earliest<T>(done: seq<Placed<T>>, n: nat, resources: seq<Resource>, m: nat, ready: real): real
    requires n <= |done| && m <= |resources|
  {
    if m == 0 then ready else Later(Earliest(done, n, resources, m - 1, ready), Available(done, n, resources[m - 1]))
  }

  function Makespan<T>(done: seq<Placed<T>>, n: nat): real
    requires n <= |done|
  {
    if n == 0 then 0.0 else Later(Makespan(done, n - 1), done[n - 1].end)
  }

  /** The time that the first `n` items occupy `key`. */
  function Load<T>(done: seq<Placed<T>>, n: nat, key: Resource): real
    requires n <= |done|
  {
    if n == 0 then 0.0
    else Load(done, n - 1, key) + (if key in done[n - 1].resources then done[n - 1].end - done[n - 1].start else 0.0)
  }

  function TotalService<T>(done: seq<Placed<T>>, n: nat): real
    requires n <= |done|
  {
    if n == 0 then 0.0 else TotalService(done, n - 1) + (done[n - 1].end - done[n - 1].start)
  }

  predicate FifoAt<T>(done: seq<Placed<T>>, i: nat) {
    && i < |done|
    && done[i].start <= done[i].end
    && 0.0 <= done[i].ready <= Makespan(done, i)
    && done[i].start == Earliest(done, i, done[i].resources, |done[i].resources|, done[i].ready)
  }

  /** Every item waits for exactly its ready time and its resources; nothing is ready later than something already ends. */
  ghost predicate Fifo<T>(done: seq<Placed<T>>) {
    forall i :: 0 <= i < |done| ==> FifoAt(done, i)
  }

  // ----- prefixes -----

  lemma {:induction false} AvailablePrefix<T>(done: seq<Placed<T>>, all: seq<Placed<T>>, n: nat, key: Resource)
    requires n <= |done| <= |all| && all[..|done|] == done
    ensures Available(all, n, key) == Available(done, n, key)
    decreases n
  {
    if n > 0 {
      assert all[n - 1] == done[n - 1];
      AvailablePrefix(done, all, n - 1, key);
    }
  }

  lemma {:induction false} EarliestPrefix<T>(done: seq<Placed<T>>, all: seq<Placed<T>>, n: nat, resources: seq<Resource>, m: nat, ready: real)
    requires n <= |done| <= |all| && all[..|done|] == done && m <= |resources|
    ensures Earliest(all, n, resources, m, ready) == Earliest(done, n, resources, m, ready)
    decreases m
  {
    if m > 0 {
      EarliestPrefix(done, all, n, resources, m - 1, ready);
      AvailablePrefix(done, all, n, resources[m - 1]);
    }
  }

  lemma {:induction false} MakespanPrefix<T>(done: seq<Placed<T>>, all: seq<Placed<T>>, n: nat)
    requires n <= |done| <= |all| && all[..|done|] == done
    ensures Makespan(all, n) == Makespan(done, n)
    decreases n
  {
    if n > 0 {
      assert all[n - 1] == done[n - 1];
      MakespanPrefix(done, all, n - 1);
    }
  }

  /** Appending an item that is placed by the rule keeps the rule. */
  lemma {:induction false} FifoAppend<T>(done: seq<Placed<T>>, all: seq<Placed<T>>, item: Placed<T>)
    requires Fifo(done) && all == done + [item]
    requires item.start <= item.end && 0.0 <= item.ready <= Makespan(done, |done|)
    requires item.start == Earliest(done, |done|, item.resources, |item.resources|, item.ready)
    ensures Fifo(all)
  {
    forall i | 0 <= i < |all| ensures FifoAt(all, i) {
      assert i < |done| ==> FifoAt(done, i) && all[i] == done[i];
      EarliestPrefix(done, all, i, all[i].resources, |all[i].resources|, all[i].ready);
      MakespanPrefix(done, all, i);
    }
  }

  // ----- what the rule gives -----

  lemma {:induction false} MakespanCovers<T>(done: seq<Placed<T>>, n: nat, i: nat)
    requires n <= |done| && i < n
    ensures done[i].end <= Makespan(done, n)
    decreases n
  {
    if i < n - 1 { MakespanCovers(done, n - 1, i); }
  }

  lemma {:induction false} AvailableInMakespan<T>(done: seq<Placed<T>>, n: nat, key: Resource)
    requires n <= |done|
    ensures Available(done, n, key) <= Makespan(done, n) && 0.0 <= Makespan(done, n)
    decreases n
  {
    if n > 0 { AvailableInMakespan(done, n - 1, key); }
  }

  lemma {:induction false} EarliestBounds<T>(done: seq<Placed<T>>, n: nat, resources: seq<Resource>, m: nat, ready: real)
    requires n <= |done| && m <= |resources|
    ensures ready <= Earliest(done, n, resources, m, ready) <= Later(ready, Makespan(done, n))
    decreases m
  {
    if m > 0 {
      EarliestBounds(done, n, resources, m - 1, ready);
      AvailableInMakespan(done, n, resources[m - 1]);
    }
  }

  lemma {:induction false} EarliestWaits<T>(done: seq<Placed<T>>, n: nat, resources: seq<Resource>, m: nat, ready: real, key: Resource)
    requires n <= |done| && m <= |resources| && key in resources[..m]
    ensures Available(done, n, key) <= Earliest(done, n, resources, m, ready)
    decreases m
  {
    if key != resources[m - 1] {
      assert key in resources[..m - 1];
      EarliestWaits(done, n, resources, m - 1, ready, key);
    }
  }

  /** Nobody starts before a resource is free or before being ready. */
  lemma {:induction false} StartsLate<T>(done: seq<Placed<T>>, i: nat)
    requires Fifo(done) && i < |done|
    ensures done[i].ready <= done[i].start <= Makespan(done, i)
    ensures forall key :: key in done[i].resources ==> Available(done, i, key) <= done[i].start
  {
    assert FifoAt(done, i);
    var resources := done[i].resources;
    EarliestBounds(done, i, resources, |resources|, done[i].ready);
    forall key | key in resources ensures Available(done, i, key) <= done[i].start {
      assert resources[..|resources|] == resources;
      EarliestWaits(done, i, resources, |resources|, done[i].ready, key);
    }
  }

  /** A resource is free only after every earlier user has ended. */
  lemma {:induction false} AvailableAfterUsers<T>(done: seq<Placed<T>>, n: nat, key: Resource, i: nat)
    requires Fifo(done) && n <= |done| && i < n && key in done[i].resources
    ensures done[i].end <= Available(done, n, key)
    decreases n
  {
    if i < n - 1 {
      AvailableAfterUsers(done, n - 1, key, i);
      StartsLate(done, n - 1);
      assert FifoAt(done, n - 1);
    }
  }

  /** Users of a common resource never overlap: the one placed later starts after the earlier one has ended. */
  lemma {:induction false} Exclusive<T>(done: seq<Placed<T>>, i: nat, j: nat, key: Resource)
    requires Fifo(done) && i < j < |done| && key in done[i].resources && key in done[j].resources
    ensures done[i].end <= done[j].start
  {
    AvailableAfterUsers(done, j, key, i);
    StartsLate(done, j);
  }

  /** The makespan is at least the load of every resource. */
  lemma {:induction false} LoadBound<T>(done: seq<Placed<T>>, n: nat, key: Resource)
    requires Fifo(done) && n <= |done|
    ensures Load(done, n, key) <= Available(done, n, key) <= Makespan(done, n)
    decreases n
  {
    AvailableInMakespan(done, n, key);
    if n > 0 {
      LoadBound(done, n - 1, key);
      StartsLate(done, n - 1);
    }
  }

  /** The makespan is at most the sum of all services. */
  lemma {:induction false} TotalBound<T>(done: seq<Placed<T>>, n: nat)
    requires Fifo(done) && n <= |done|
    ensures Makespan(done, n) <= TotalService(done, n)
    decreases n
  {
    if n > 0 {
      TotalBound(done, n - 1);
      StartsLate(done, n - 1);
      assert FifoAt(done, n - 1);
    }
  }
}
