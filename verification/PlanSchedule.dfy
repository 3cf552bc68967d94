/**
  `TrafficPlan.service`: repeatedly places the phase that is ready first.  `cost` is the service time
  of a phase and `order` the position of a phase identifier among the others; the results hold for
  every choice of both.
 */
module PlanSchedule {
  import opened Common
  import opened TrafficTypes
  import opened ListSchedule
  import opened PhaseSchedule

  type Entry = Placed<TrafficPhase>

  // ----- the schedule as a function of what has been placed -----

  predicate Finished(done: seq<Entry>, n: nat, id: PhaseId)
    requires n <= |done|
  {
    n > 0 && (done[n - 1].item.id == id || Finished(done, n - 1, id))
  }

  function EndOf(done: seq<Entry>, n: nat, id: PhaseId): real
    requires n <= |done|
  {
    if n == 0 then 0.0 else if done[n - 1].item.id == id then done[n - 1].end else EndOf(done, n - 1, id)
  }

  /** The latest end of the first `m` identifiers. */
  function Ready(done: seq<Entry>, n: nat, ids: seq<PhaseId>, m: nat): real
    requires n <= |done| && m <= |ids|
  {
    if m == 0 then 0.0 else Later(Ready(done, n, ids, m - 1), EndOf(done, n, ids[m - 1]))
  }

  predicate AllFinished(done: seq<Entry>, n: nat, ids: seq<PhaseId>)
    requires n <= |done|
  {
    forall k :: 0 <= k < |ids| ==> Finished(done, n, ids[k])
  }

  function ReadyTime(done: seq<Entry>, phase: TrafficPhase): real {
    Ready(done, |done|, phase.predecessors, |phase.predecessors|)
  }

  /** Ready earlier, or at the same time with a smaller identifier. */
  predicate Before(done: seq<Entry>, a: TrafficPhase, b: TrafficPhase, order: PhaseId -> nat) {
    var x, y := ReadyTime(done, a), ReadyTime(done, b);
    x < y || (x == y && order(a.id) < order(b.id))
  }

  /** The first of the least candidates among the first `n` pending phases. */
  function Best(pending: seq<TrafficPhase>, n: nat, done: seq<Entry>, order: PhaseId -> nat): (best: Option<nat>)
    requires n <= |pending|
    ensures best.Some? ==> best.value < n && AllFinished(done, |done|, pending[best.value].predecessors)
    ensures best.None? ==> forall k :: 0 <= k < n ==> !AllFinished(done, |done|, pending[k].predecessors)
  {
    if n == 0 then None
    else
      var earlier := Best(pending, n - 1, done, order);
      if !AllFinished(done, |done|, pending[n - 1].predecessors) then earlier
      else if earlier.None? || Before(done, pending[n - 1], pending[earlier.value], order) then Some(n - 1)
      else earlier
  }

  function Place(done: seq<Entry>, phase: TrafficPhase, cost: TrafficPhase -> real): Entry {
    var keys := ResourceIds(phase);
    var ready := ReadyTime(done, phase);
    var start := Earliest(done, |done|, keys, |keys|, ready);
    Placed(phase, keys, ready, start, start + cost(phase))
  }

  function DropAt<T>(s: seq<T>, i: nat): (rest: seq<T>)
    requires i < |s|
    ensures |rest| == |s| - 1
  {
    s[..i] + s[i + 1..]
  }

  /** Places all of `pending` after `done`, or nothing if no pending phase can ever start. */
  function Schedule(pending: seq<TrafficPhase>, done: seq<Entry>, cost: TrafficPhase -> real, order: PhaseId -> nat): Option<seq<Entry>>
    decreases |pending|
  {
    if pending == [] then Some(done)
    else
      var best := Best(pending, |pending|, done, order);
      if best.None? then None
      else Schedule(DropAt(pending, best.value), done + [Place(done, pending[best.value], cost)], cost, order)
  }

  // ----- the loop -----

  ghost predicate Records(ends: map<PhaseId, real>, done: seq<Entry>) {
    forall id :: (id in ends <==> Finished(done, |done|, id)) && (id in ends ==> ends[id] == EndOf(done, |done|, id))
  }

  method ReadyAt(ends: map<PhaseId, real>, ghost done: seq<Entry>, phase: TrafficPhase) returns (candidate: bool, ready: real)
    requires Records(ends, done)
    ensures candidate <==> AllFinished(done, |done|, phase.predecessors)
    ensures candidate ==> ready == ReadyTime(done, phase)
  {
    ready := 0.0;
    for k := 0 to |phase.predecessors|
      invariant forall q :: 0 <= q < k ==> Finished(done, |done|, phase.predecessors[q])
      invariant ready == Ready(done, |done|, phase.predecessors, k)
    {
      if phase.predecessors[k] !in ends { return false, ready; }
      ready := Later(ready, ends[phase.predecessors[k]]);
    }
    candidate := true;
  }

  /** The candidate with the least ready time, identifiers breaking ties. */
  method PickPhase(pending: seq<TrafficPhase>, ends: map<PhaseId, real>, ghost done: seq<Entry>, order: PhaseId -> nat)
    returns (best: Option<nat>)
    requires Records(ends, done)
    ensures best == Best(pending, |pending|, done, order)
  {
    best := None;
    var least := 0.0;
    for k := 0 to |pending|
      invariant best == Best(pending, k, done, order)
      invariant best.Some? ==> least == ReadyTime(done, pending[best.value])
    {
      var candidate, ready := ReadyAt(ends, done, pending[k]);
      if candidate {
        if best.None? || ready < least || (ready == least && order(pending[k].id) < order(pending[best.value].id)) {
          best, least := Some(k), ready;
        }
      }
    }
  }

  lemma {:induction false} FinishedPrefix(done: seq<Entry>, all: seq<Entry>, n: nat, id: PhaseId)
    requires n <= |done| <= |all| && all[..|done|] == done
    ensures Finished(all, n, id) == Finished(done, n, id) && EndOf(all, n, id) == EndOf(done, n, id)
    decreases n
  {
    if n > 0 {
      assert all[n - 1] == done[n - 1];
      FinishedPrefix(done, all, n - 1, id);
    }
  }

  lemma {:induction false} RecordsAppend(ends: map<PhaseId, real>, done: seq<Entry>, all: seq<Entry>, entry: Entry)
    requires Records(ends, done) && all == done + [entry]
    ensures Records(ends[entry.item.id := entry.end], all)
  {
    var after := ends[entry.item.id := entry.end];
    forall id ensures (id in after <==> Finished(all, |all|, id)) && (id in after ==> after[id] == EndOf(all, |all|, id)) {
      FinishedPrefix(done, all, |done|, id);
    }
  }

  /** Either the time at which everything has ended, or an error because no pending phase can start. */
  method Service(phases: seq<TrafficPhase>, cost: TrafficPhase -> real, order: PhaseId -> nat) returns (result: Result<real>)
    ensures result == match Schedule(phases, [], cost, order)
                      case None => Err(ConfigurationError)
                      case Some(all) => Ok(Makespan(all, |all|))
  {
    var ends: map<PhaseId, real>, available: map<Resource, real>, pending := map[], map[], phases;
    var latest := 0.0;
    ghost var done: seq<Entry> := [];
    while pending != []
      invariant Records(ends, done) && Tracks(available, done)
      invariant latest == Makespan(done, |done|)
      invariant Schedule(pending, done, cost, order) == Schedule(phases, [], cost, order)
      decreases |pending|
    {
      var best := PickPhase(pending, ends, done, order);
      if best.None? {
        return Err(ConfigurationError);
      }
      var phase := pending[best.value];
      var candidate, ready := ReadyAt(ends, done, phase);
      var keys := ResourceIds(phase);
      var start := EarliestStart(available, done, keys, ready);
      var entry := Placed(phase, keys, ready, start, start + cost(phase));
      ghost var all := done + [entry];
      RecordsAppend(ends, done, all, entry);
      ends := ends[phase.id := entry.end];
      available := Occupy(available, done, entry);
      MakespanPrefix(done, all, |done|);
      latest := Later(latest, entry.end);
      pending := DropAt(pending, best.value);
      done := all;
    }
    result := Ok(latest);
  }

  // ----- every placed phase obeys the rules -----

  predicate RuleAt(done: seq<Entry>, i: nat, cost: TrafficPhase -> real) {
    && i < |done|
    && done[i].resources == ResourceIds(done[i].item)
    && AllFinished(done, i, done[i].item.predecessors)
    && done[i].ready == Ready(done, i, done[i].item.predecessors, |done[i].item.predecessors|)
    && done[i].end == done[i].start + cost(done[i].item)
  }

  ghost predicate Lawful(done: seq<Entry>, cost: TrafficPhase -> real) {
    Fifo(done) && forall i :: 0 <= i < |done| ==> RuleAt(done, i, cost)
  }

  lemma {:induction false} ReadyPrefix(done: seq<Entry>, all: seq<Entry>, n: nat, ids: seq<PhaseId>, m: nat)
    requires n <= |done| <= |all| && all[..|done|] == done && m <= |ids|
    ensures Ready(all, n, ids, m) == Ready(done, n, ids, m)
    decreases m
  {
    if m > 0 {
      ReadyPrefix(done, all, n, ids, m - 1);
      FinishedPrefix(done, all, n, ids[m - 1]);
    }
  }

  lemma {:induction false} EndInMakespan(done: seq<Entry>, n: nat, id: PhaseId)
    requires n <= |done|
    ensures EndOf(done, n, id) <= Makespan(done, n) && 0.0 <= Makespan(done, n)
    decreases n
  {
    if n > 0 { EndInMakespan(done, n - 1, id); }
  }

  lemma {:induction false} ReadyInMakespan(done: seq<Entry>, n: nat, ids: seq<PhaseId>, m: nat)
    requires n <= |done| && m <= |ids|
    ensures 0.0 <= Ready(done, n, ids, m) <= Makespan(done, n)
    decreases m
  {
    EndInMakespan(done, n, Ring);
    if m > 0 {
      ReadyInMakespan(done, n, ids, m - 1);
      EndInMakespan(done, n, ids[m - 1]);
    }
  }

  lemma {:induction false} RuleKept(done: seq<Entry>, all: seq<Entry>, i: nat, cost: TrafficPhase -> real)
    requires i < |done| <= |all| && all[..|done|] == done && RuleAt(done, i, cost)
    ensures RuleAt(all, i, cost)
  {
    assert all[i] == done[i];
    var ids := done[i].item.predecessors;
    ReadyPrefix(done, all, i, ids, |ids|);
    forall k | 0 <= k < |ids| ensures Finished(all, i, ids[k]) { FinishedPrefix(done, all, i, ids[k]); }
  }

  lemma {:induction false} RuleNew(done: seq<Entry>, all: seq<Entry>, phase: TrafficPhase, cost: TrafficPhase -> real)
    requires all == done + [Place(done, phase, cost)] && AllFinished(done, |done|, phase.predecessors)
    ensures RuleAt(all, |done|, cost)
  {
    var ids := phase.predecessors;
    assert all[..|done|] == done;
    ReadyPrefix(done, all, |done|, ids, |ids|);
    forall k | 0 <= k < |ids| ensures Finished(all, |done|, ids[k]) { FinishedPrefix(done, all, |done|, ids[k]); }
  }

  lemma {:induction false} LawfulAppend(done: seq<Entry>, all: seq<Entry>, phase: TrafficPhase, cost: TrafficPhase -> real)
    requires Lawful(done, cost) && all == done + [Place(done, phase, cost)]
    requires AllFinished(done, |done|, phase.predecessors) && cost(phase) >= 0.0
    ensures Lawful(all, cost)
  {
    ReadyInMakespan(done, |done|, phase.predecessors, |phase.predecessors|);
    FifoAppend(done, all, all[|done|]);
    forall i | 0 <= i < |all| ensures RuleAt(all, i, cost) {
      if i < |done| { RuleKept(done, all, i, cost); } else { RuleNew(done, all, phase, cost); }
    }
  }

  function Items(done: seq<Entry>, n: nat): multiset<TrafficPhase>
    requires n <= |done|
  {
    if n == 0 then multiset{} else Items(done, n - 1) + multiset{done[n - 1].item}
  }

  lemma {:induction false} ItemsPrefix(done: seq<Entry>, all: seq<Entry>, n: nat)
    requires n <= |done| <= |all| && all[..|done|] == done
    ensures Items(all, n) == Items(done, n)
    decreases n
  {
    if n > 0 {
      assert all[n - 1] == done[n - 1];
      ItemsPrefix(done, all, n - 1);
    }
  }

  lemma {:induction false} WithoutItem<T>(s: seq<T>, i: nat, rest: seq<T>)
    requires i < |s| && rest == DropAt(s, i)
    ensures multiset(s) == multiset(rest) + multiset{s[i]}
  {
    assert s == s[..i] + [s[i]] + s[i + 1..];
  }

  ghost predicate NonNegative(phases: seq<TrafficPhase>, cost: TrafficPhase -> real) {
    forall k :: 0 <= k < |phases| ==> cost(phases[k]) >= 0.0
  }

  /** A finished schedule is lawful and places every phase exactly once. */
  lemma {:induction false} ScheduleKeeps(pending: seq<TrafficPhase>, done: seq<Entry>, cost: TrafficPhase -> real, order: PhaseId -> nat)
    requires Lawful(done, cost) && NonNegative(pending, cost)
    requires Schedule(pending, done, cost, order).Some?
    ensures var all := Schedule(pending, done, cost, order).value;
      Lawful(all, cost) && Items(all, |all|) == Items(done, |done|) + multiset(pending)
    decreases |pending|
  {
    if pending != [] {
      var i := Best(pending, |pending|, done, order).value;
      var rest, next := DropAt(pending, i), done + [Place(done, pending[i], cost)];
      LawfulAppend(done, next, pending[i], cost);
      ScheduleKeeps(rest, next, cost, order);
      ItemsPrefix(done, next, |done|);
      WithoutItem(pending, i, rest);
    }
  }

  // ----- dependencies and chains -----

  ghost predicate DistinctEntries(done: seq<Entry>) {
    forall i, j :: 0 <= i < j < |done| ==> done[i].item.id != done[j].item.id
  }

  lemma {:induction false} EndOfEntry(done: seq<Entry>, n: nat, i: nat, id: PhaseId)
    requires DistinctEntries(done) && n <= |done| && Finished(done, n, id) && i < |done| && done[i].item.id == id
    ensures i < n && EndOf(done, n, id) == done[i].end
    decreases n
  {
    if done[n - 1].item.id != id { EndOfEntry(done, n - 1, i, id); }
  }

  lemma {:induction false} ReadyCovers(done: seq<Entry>, n: nat, ids: seq<PhaseId>, m: nat, q: nat)
    requires n <= |done| && q < m <= |ids|
    ensures EndOf(done, n, ids[q]) <= Ready(done, n, ids, m)
    decreases m
  {
    if q < m - 1 { ReadyCovers(done, n, ids, m - 1, q); }
  }

  /** No phase starts before a phase it waits for has ended. */
  lemma {:induction false} WaitsForPredecessor(done: seq<Entry>, cost: TrafficPhase -> real, i: nat, j: nat)
    requires Lawful(done, cost) && DistinctEntries(done) && i < |done| && j < |done|
    requires done[i].item.id in done[j].item.predecessors
    ensures i < j && done[i].end <= done[j].start
  {
    var ids, id := done[j].item.predecessors, done[i].item.id;
    var q :| 0 <= q < |ids| && ids[q] == id;
    assert RuleAt(done, j, cost);
    EndOfEntry(done, j, i, id);
    ReadyCovers(done, j, ids, |ids|, q);
    StartsLate(done, j);
  }

  /** `chain` lists places in the schedule, each waiting for the one before. */
  ghost predicate Chain(done: seq<Entry>, chain: seq<nat>) {
    && (forall k :: 0 <= k < |chain| ==> chain[k] < |done|)
    && (forall k :: 0 < k < |chain| ==> done[chain[k - 1]].item.id in done[chain[k]].item.predecessors)
  }

  function ChainService(done: seq<Entry>, chain: seq<nat>, n: nat, cost: TrafficPhase -> real): real
    requires n <= |chain| && forall k :: 0 <= k < |chain| ==> chain[k] < |done|
  {
    if n == 0 then 0.0 else ChainService(done, chain, n - 1, cost) + cost(done[chain[n - 1]].item)
  }

  /** The makespan is at least the total service of every dependency chain. */
  lemma {:induction false} ChainBound(done: seq<Entry>, chain: seq<nat>, n: nat, cost: TrafficPhase -> real)
    requires Lawful(done, cost) && DistinctEntries(done) && Chain(done, chain) && 0 < n <= |chain|
    ensures ChainService(done, chain, n, cost) <= done[chain[n - 1]].end <= Makespan(done, |done|)
    decreases n
  {
    var last := chain[n - 1];
    assert RuleAt(done, last, cost) && FifoAt(done, last);
    StartsLate(done, last);
    MakespanCovers(done, |done|, last);
    if n > 1 {
      ChainBound(done, chain, n - 1, cost);
      WaitsForPredecessor(done, cost, chain[n - 2], last);
    }
  }

  // ----- when the loop finishes -----

  ghost predicate HasId(phases: seq<TrafficPhase>, id: PhaseId) {
    exists k :: 0 <= k < |phases| && phases[k].id == id
  }

  ghost predicate DistinctIds(phases: seq<TrafficPhase>) {
    forall i, j :: 0 <= i < j < |phases| ==> phases[i].id != phases[j].id
  }

  /** `id` has not run and only a member of `stuck`, or nobody, could run it. */
  ghost predicate Hopeless(pending: seq<TrafficPhase>, done: seq<Entry>, stuck: set<PhaseId>, id: PhaseId) {
    !Finished(done, |done|, id) && (id in stuck || !HasId(pending, id))
  }

  ghost predicate Blocked(pending: seq<TrafficPhase>, done: seq<Entry>, stuck: set<PhaseId>, phase: TrafficPhase) {
    exists q :: 0 <= q < |phase.predecessors| && Hopeless(pending, done, stuck, phase.predecessors[q])
  }

  /** A cycle or a missing phase: every member waits for another member or for a phase that does not exist. */
  ghost predicate Stuck(pending: seq<TrafficPhase>, done: seq<Entry>, stuck: set<PhaseId>) {
    && stuck != {}
    && (forall id :: id in stuck ==> HasId(pending, id))
    && (forall k :: 0 <= k < |pending| && pending[k].id in stuck ==> Blocked(pending, done, stuck, pending[k]))
  }

  lemma {:induction false} HopelessNext(pending: seq<TrafficPhase>, done: seq<Entry>, stuck: set<PhaseId>, i: nat, rest: seq<TrafficPhase>, next: seq<Entry>,
                     entry: Entry, id: PhaseId)
    requires i < |pending| && rest == DropAt(pending, i) && next == done + [entry] && entry.item == pending[i]
    ensures pending[i].id !in stuck && Hopeless(pending, done, stuck, id) ==> Hopeless(rest, next, stuck, id)
    ensures Hopeless(rest, next, stuck, id) ==> Hopeless(pending, done, stuck, id)
  {
    FinishedPrefix(done, next, |done|, id);
    if HasId(rest, id) {
      var k :| 0 <= k < |rest| && rest[k].id == id;
      assert rest[k] == pending[if k < i then k else k + 1];
    }
    if HasId(pending, id) && id != pending[i].id {
      var k :| 0 <= k < |pending| && pending[k].id == id;
      assert rest[if k < i then k else k - 1] == pending[k];
    }
  }

  lemma {:induction false} StuckNext(pending: seq<TrafficPhase>, done: seq<Entry>, stuck: set<PhaseId>, i: nat, rest: seq<TrafficPhase>, next: seq<Entry>, entry: Entry)
    requires Stuck(pending, done, stuck) && i < |pending| && pending[i].id !in stuck
    requires rest == DropAt(pending, i) && next == done + [entry] && entry.item == pending[i]
    ensures Stuck(rest, next, stuck)
  {
    forall id | id in stuck ensures HasId(rest, id) {
      var k :| 0 <= k < |pending| && pending[k].id == id;
      assert rest[if k < i then k else k - 1] == pending[k];
    }
    forall k | 0 <= k < |rest| && rest[k].id in stuck ensures Blocked(rest, next, stuck, rest[k]) {
      var phase := pending[if k < i then k else k + 1];
      assert rest[k] == phase && Blocked(pending, done, stuck, phase);
      var q :| 0 <= q < |phase.predecessors| && Hopeless(pending, done, stuck, phase.predecessors[q]);
      HopelessNext(pending, done, stuck, i, rest, next, entry, phase.predecessors[q]);
    }
  }

  lemma {:induction false} StuckFails(pending: seq<TrafficPhase>, done: seq<Entry>, stuck: set<PhaseId>,
                                      cost: TrafficPhase -> real, order: PhaseId -> nat)
    requires Stuck(pending, done, stuck)
    ensures Schedule(pending, done, cost, order).None?
    decreases |pending|
  {
    var id :| id in stuck;
    assert HasId(pending, id);
    var best := Best(pending, |pending|, done, order);
    if best.Some? {
      var phase := pending[best.value];
      var entry := Place(done, phase, cost);
      assert !Blocked(pending, done, stuck, phase);
      StuckNext(pending, done, stuck, best.value, DropAt(pending, best.value), done + [entry], entry);
      StuckFails(DropAt(pending, best.value), done + [entry], stuck, cost, order);
    }
  }

  function IdsUpTo(phases: seq<TrafficPhase>, n: nat): (ids: set<PhaseId>)
    requires n <= |phases|
  {
    if n == 0 then {} else IdsUpTo(phases, n - 1) + {phases[n - 1].id}
  }

  lemma {:induction false} IdListed(phases: seq<TrafficPhase>, n: nat, k: nat)
    requires k < n <= |phases|
    ensures phases[k].id in IdsUpTo(phases, n)
    decreases n
  {
    if k < n - 1 { IdListed(phases, n - 1, k); }
  }

  lemma {:induction false} ListedId(phases: seq<TrafficPhase>, n: nat, id: PhaseId)
    requires n <= |phases| && id in IdsUpTo(phases, n)
    ensures HasId(phases, id)
    decreases n
  {
    if id != phases[n - 1].id { ListedId(phases, n - 1, id); }
  }

  lemma {:induction false} AllStuck(pending: seq<TrafficPhase>, done: seq<Entry>, order: PhaseId -> nat)
    requires pending != [] && Best(pending, |pending|, done, order).None?
    ensures Stuck(pending, done, IdsUpTo(pending, |pending|))
  {
    var ids := IdsUpTo(pending, |pending|);
    IdListed(pending, |pending|, 0);
    forall id | id in ids ensures HasId(pending, id) { ListedId(pending, |pending|, id); }
    forall k | 0 <= k < |pending| ensures Blocked(pending, done, ids, pending[k]) {
      var waits := pending[k].predecessors;
      assert !AllFinished(done, |done|, waits);
      var q :| 0 <= q < |waits| && !Finished(done, |done|, waits[q]);
      if HasId(pending, waits[q]) {
        var i :| 0 <= i < |pending| && pending[i].id == waits[q];
        IdListed(pending, |pending|, i);
      }
      assert Hopeless(pending, done, ids, waits[q]);
    }
  }

  lemma {:induction false} StuckBefore(pending: seq<TrafficPhase>, done: seq<Entry>, stuck: set<PhaseId>, i: nat, rest: seq<TrafficPhase>, next: seq<Entry>, entry: Entry)
    requires DistinctIds(pending) && i < |pending| && Stuck(rest, next, stuck)
    requires rest == DropAt(pending, i) && next == done + [entry] && entry.item == pending[i]
    ensures Stuck(pending, done, stuck)
  {
    hide Hopeless;
    forall id | id in stuck ensures HasId(pending, id) && id != pending[i].id {
      var k :| 0 <= k < |rest| && rest[k].id == id;
      assert rest[k] == pending[if k < i then k else k + 1];
    }
    forall k | 0 <= k < |pending| && pending[k].id in stuck ensures Blocked(pending, done, stuck, pending[k]) {
      var phase := pending[k];
      assert rest[if k < i then k else k - 1] == phase && Blocked(rest, next, stuck, phase);
      var q :| 0 <= q < |phase.predecessors| && Hopeless(rest, next, stuck, phase.predecessors[q]);
      HopelessNext(pending, done, stuck, i, rest, next, entry, phase.predecessors[q]);
    }
  }

  lemma {:induction false} FailsStuck(pending: seq<TrafficPhase>, done: seq<Entry>, cost: TrafficPhase -> real, order: PhaseId -> nat)
    returns (stuck: set<PhaseId>)
    requires DistinctIds(pending) && Schedule(pending, done, cost, order).None?
    ensures Stuck(pending, done, stuck)
    decreases |pending|
  {
    var best := Best(pending, |pending|, done, order);
    if best.None? {
      AllStuck(pending, done, order);
      stuck := IdsUpTo(pending, |pending|);
    } else {
      var rest := DropAt(pending, best.value);
      var entry := Place(done, pending[best.value], cost);
      stuck := FailsStuck(rest, done + [entry], cost, order);
      StuckBefore(pending, done, stuck, best.value, rest, done + [entry], entry);
    }
  }

  /** The schedule completes exactly when the dependencies have no cycle and no missing phase. */
  lemma {:induction false} ScheduleCompletes(phases: seq<TrafficPhase>, cost: TrafficPhase -> real, order: PhaseId -> nat)
    requires DistinctIds(phases)
    ensures Schedule(phases, [], cost, order).None? <==> exists stuck :: Stuck(phases, [], stuck)
  {
    if Schedule(phases, [], cost, order).None? {
      var stuck := FailsStuck(phases, [], cost, order);
    } else if exists stuck :: Stuck(phases, [], stuck) {
      var stuck :| Stuck(phases, [], stuck);
      StuckFails(phases, [], stuck, cost, order);
    }
  }

  // ----- plans listed in dependency order -----

  ghost predicate Covers(a: set<PhaseId>, b: set<PhaseId>, ids: seq<PhaseId>) {
    forall q :: 0 <= q < |ids| ==> ids[q] in a || ids[q] in b
  }

  ghost predicate OrderlyAt(phases: seq<TrafficPhase>, known: set<PhaseId>, k: nat) {
    && k < |phases|
    && phases[k].id !in known && phases[k].id !in IdsUpTo(phases, k)
    && Covers(known, IdsUpTo(phases, k), phases[k].predecessors)
  }

  /** Every phase has a new identifier and waits only for phases listed before it, or for `known` ones. */
  ghost predicate Orderly(phases: seq<TrafficPhase>, known: set<PhaseId>) {
    forall k :: 0 <= k < |phases| ==> OrderlyAt(phases, known, k)
  }

  lemma {:induction false} OrderlyDistinct(phases: seq<TrafficPhase>, known: set<PhaseId>)
    requires Orderly(phases, known)
    ensures DistinctIds(phases)
  {
    forall i, j | 0 <= i < j < |phases| ensures phases[i].id != phases[j].id {
      assert OrderlyAt(phases, known, j);
      IdListed(phases, j, i);
    }
  }

  lemma {:induction false} NotHopeless(phases: seq<TrafficPhase>, stuck: set<PhaseId>, n: nat, id: PhaseId)
    requires n <= |phases| && stuck !! IdsUpTo(phases, n) && id in IdsUpTo(phases, n)
    ensures !Hopeless(phases, [], stuck, id)
  {
    ListedId(phases, n, id);
  }

  /** The first member of a stuck set would have to wait for an earlier member. */
  lemma {:induction false} NobodyStuck(phases: seq<TrafficPhase>, stuck: set<PhaseId>, n: nat)
    requires n <= |phases| && Orderly(phases, {}) && Stuck(phases, [], stuck)
    ensures stuck !! IdsUpTo(phases, n)
    decreases n
  {
    if n > 0 {
      NobodyStuck(phases, stuck, n - 1);
      var phase := phases[n - 1];
      assert OrderlyAt(phases, {}, n - 1);
      forall q | 0 <= q < |phase.predecessors| ensures !Hopeless(phases, [], stuck, phase.predecessors[q]) {
        NotHopeless(phases, stuck, n - 1, phase.predecessors[q]);
      }
      assert !Blocked(phases, [], stuck, phase);
    }
  }

  lemma {:induction false} OrderlyCompletes(phases: seq<TrafficPhase>, cost: TrafficPhase -> real, order: PhaseId -> nat)
    requires Orderly(phases, {})
    ensures DistinctIds(phases) && Schedule(phases, [], cost, order).Some?
  {
    OrderlyDistinct(phases, {});
    if Schedule(phases, [], cost, order).None? {
      var stuck := FailsStuck(phases, [], cost, order);
      var id :| id in stuck;
      var k :| 0 <= k < |phases| && phases[k].id == id;
      IdListed(phases, |phases|, k);
      NobodyStuck(phases, stuck, |phases|);
    }
  }

  lemma {:induction false} IdsOfPrefix(a: seq<TrafficPhase>, b: seq<TrafficPhase>, all: seq<TrafficPhase>, n: nat)
    requires n <= |a| && all == a + b
    ensures IdsUpTo(all, n) == IdsUpTo(a, n)
    decreases n
  {
    if n > 0 { IdsOfPrefix(a, b, all, n - 1); }
  }

  lemma {:induction false} IdsOfSuffix(a: seq<TrafficPhase>, b: seq<TrafficPhase>, all: seq<TrafficPhase>, n: nat)
    requires n <= |b| && all == a + b
    ensures IdsUpTo(all, |a| + n) == IdsUpTo(a, |a|) + IdsUpTo(b, n)
    decreases n
  {
    if n == 0 {
      IdsOfPrefix(a, b, all, |a|);
    } else {
      IdsOfSuffix(a, b, all, n - 1);
      assert all[|a| + n - 1] == b[n - 1];
    }
  }

  lemma {:induction false} FollowedEarly(a: seq<TrafficPhase>, b: seq<TrafficPhase>, all: seq<TrafficPhase>, known: set<PhaseId>, k: nat)
    requires all == a + b && k < |a| && OrderlyAt(a, known, k)
    ensures OrderlyAt(all, known, k)
  {
    IdsOfPrefix(a, b, all, k);
    assert all[k] == a[k];
  }

  lemma {:induction false} FollowedLate(a: seq<TrafficPhase>, b: seq<TrafficPhase>, all: seq<TrafficPhase>, known: set<PhaseId>, wider: set<PhaseId>, k: nat)
    requires all == a + b && wider == known + IdsUpTo(a, |a|) && OrderlyAt(b, wider, k)
    ensures OrderlyAt(all, known, |a| + k)
  {
    IdsOfSuffix(a, b, all, k);
    assert all[|a| + k] == b[k];
  }

  /** An orderly list followed by one that only needs what came before stays orderly. */
  lemma {:induction false} Followed(a: seq<TrafficPhase>, b: seq<TrafficPhase>, all: seq<TrafficPhase>, known: set<PhaseId>, wider: set<PhaseId>)
    requires all == a + b && wider == known + IdsUpTo(a, |a|) && Orderly(a, known) && Orderly(b, wider)
    ensures Orderly(all, known) && IdsUpTo(all, |all|) == IdsUpTo(a, |a|) + IdsUpTo(b, |b|)
  {
    IdsOfSuffix(a, b, all, |b|);
    forall k | 0 <= k < |all| ensures OrderlyAt(all, known, k) {
      if k < |a| { FollowedEarly(a, b, all, known, k); } else { FollowedLate(a, b, all, known, wider, k - |a|); }
    }
  }

  /** Three stages, each waiting only for phases of earlier stages. */
  lemma {:induction false} Staged(a: seq<TrafficPhase>, b: seq<TrafficPhase>, c: seq<TrafficPhase>, all: seq<TrafficPhase>)
    requires all == a + b + c
    requires Orderly(a, {}) && Orderly(b, IdsUpTo(a, |a|)) && Orderly(c, IdsUpTo(a, |a|) + IdsUpTo(b, |b|))
    ensures Orderly(all, {})
  {
    var ab := a + b;
    Followed(a, b, ab, {}, IdsUpTo(a, |a|));
    Followed(ab, c, all, {}, IdsUpTo(ab, |ab|));
  }

  // ----- the makespan in terms of the plan -----

  /** The total weight of the first `n` phases. */
  function Weigh(phases: seq<TrafficPhase>, n: nat, weight: TrafficPhase -> real): real
    requires n <= |phases|
  {
    if n == 0 then 0.0 else Weigh(phases, n - 1, weight) + weight(phases[n - 1])
  }

  function Tally(done: seq<Entry>, n: nat, weight: TrafficPhase -> real): real
    requires n <= |done|
  {
    if n == 0 then 0.0 else Tally(done, n - 1, weight) + weight(done[n - 1].item)
  }

  lemma {:induction false} TallyPrefix(done: seq<Entry>, all: seq<Entry>, n: nat, weight: TrafficPhase -> real)
    requires n <= |done| <= |all| && all[..|done|] == done
    ensures Tally(all, n, weight) == Tally(done, n, weight)
    decreases n
  {
    if n > 0 {
      assert all[n - 1] == done[n - 1];
      TallyPrefix(done, all, n - 1, weight);
    }
  }

  lemma {:induction false} WeighWithout(phases: seq<TrafficPhase>, i: nat, rest: seq<TrafficPhase>, n: nat, weight: TrafficPhase -> real)
    requires i < |phases| && rest == DropAt(phases, i) && n <= |rest|
    ensures if n <= i then Weigh(rest, n, weight) == Weigh(phases, n, weight)
            else Weigh(rest, n, weight) + weight(phases[i]) == Weigh(phases, n + 1, weight)
    decreases n
  {
    if n > 0 {
      assert rest[n - 1] == phases[if n - 1 < i then n - 1 else n];
      WeighWithout(phases, i, rest, n - 1, weight);
    }
  }

  lemma {:induction false} ScheduleWeighs(pending: seq<TrafficPhase>, done: seq<Entry>, cost: TrafficPhase -> real, order: PhaseId -> nat,
                                          weight: TrafficPhase -> real)
    requires Schedule(pending, done, cost, order).Some?
    ensures var all := Schedule(pending, done, cost, order).value;
      Tally(all, |all|, weight) == Tally(done, |done|, weight) + Weigh(pending, |pending|, weight)
    decreases |pending|
  {
    hide Best, Earliest, ReadyTime, AllFinished;
    if pending != [] {
      var i := Best(pending, |pending|, done, order).value;
      var rest, next := DropAt(pending, i), done + [Place(done, pending[i], cost)];
      ScheduleWeighs(rest, next, cost, order, weight);
      TallyPrefix(done, next, |done|, weight);
      WeighWithout(pending, i, rest, |rest|, weight);
    }
  }

  /** Phase weights that count only the users of `key`. */
  function Using(key: Resource, cost: TrafficPhase -> real): TrafficPhase -> real {
    (p: TrafficPhase) => if key in ResourceIds(p) then cost(p) else 0.0
  }

  lemma {:induction false} TalliesAre(done: seq<Entry>, n: nat, cost: TrafficPhase -> real, key: Resource)
    requires Lawful(done, cost) && n <= |done|
    ensures TotalService(done, n) == Tally(done, n, cost) && Load(done, n, key) == Tally(done, n, Using(key, cost))
    decreases n
  {
    if n > 0 {
      TalliesAre(done, n - 1, cost, key);
      assert RuleAt(done, n - 1, cost);
    }
  }

  ghost predicate Apart(pending: seq<TrafficPhase>, done: seq<Entry>) {
    forall i, k :: 0 <= i < |done| && 0 <= k < |pending| ==> done[i].item.id != pending[k].id
  }

  lemma {:induction false} ScheduleDistinct(pending: seq<TrafficPhase>, done: seq<Entry>, cost: TrafficPhase -> real, order: PhaseId -> nat)
    requires Schedule(pending, done, cost, order).Some?
    requires DistinctIds(pending) && DistinctEntries(done) && Apart(pending, done)
    ensures DistinctEntries(Schedule(pending, done, cost, order).value)
    decreases |pending|
  {
    hide Best, Earliest, ReadyTime, AllFinished;
    if pending != [] {
      var i := Best(pending, |pending|, done, order).value;
      var rest, next := DropAt(pending, i), done + [Place(done, pending[i], cost)];
      assert forall k :: 0 <= k < |rest| ==> rest[k] == pending[if k < i then k else k + 1];
      ScheduleDistinct(rest, next, cost, order);
    }
  }

  /**
    What a finished schedule promises: every phase runs once, after the phases it waits for, never
    overlapping another user of one of its resources, and the whole takes at least the load of each
    resource and each dependency chain and at most the sum of all services.
   */
  ghost predicate WellServed(phases: seq<TrafficPhase>, cost: TrafficPhase -> real, all: seq<Entry>) {
    && Items(all, |all|) == multiset(phases) && DistinctEntries(all)
    && (forall i, j :: 0 <= i < |all| && 0 <= j < |all| && all[i].item.id in all[j].item.predecessors ==>
          i < j && all[i].end <= all[j].start)
    && (forall i, j, key :: 0 <= i < j < |all| && key in ResourceIds(all[i].item) && key in ResourceIds(all[j].item) ==>
          all[i].end <= all[j].start)
    && (forall key :: Weigh(phases, |phases|, Using(key, cost)) <= Makespan(all, |all|))
    && Makespan(all, |all|) <= Weigh(phases, |phases|, cost)
    && (forall chain :: Chain(all, chain) && chain != [] ==>
          ChainService(all, chain, |chain|, cost) <= Makespan(all, |all|))
  }

  /** A plan listed in dependency order is always scheduled to the end. */
  lemma {:induction false} ServiceGuarantees(phases: seq<TrafficPhase>, cost: TrafficPhase -> real, order: PhaseId -> nat)
    requires Orderly(phases, {}) && NonNegative(phases, cost)
    ensures Schedule(phases, [], cost, order).Some?
    ensures WellServed(phases, cost, Schedule(phases, [], cost, order).value)
  {
    OrderlyCompletes(phases, cost, order);
    var all := Schedule(phases, [], cost, order).value;
    ScheduleKeeps(phases, [], cost, order);
    ScheduleDistinct(phases, [], cost, order);
    forall i, j | 0 <= i < |all| && 0 <= j < |all| && all[i].item.id in all[j].item.predecessors
      ensures i < j && all[i].end <= all[j].start
    {
      WaitsForPredecessor(all, cost, i, j);
    }
    forall i, j, key | 0 <= i < j < |all| && key in ResourceIds(all[i].item) && key in ResourceIds(all[j].item)
      ensures all[i].end <= all[j].start
    {
      assert RuleAt(all, i, cost) && RuleAt(all, j, cost);
      Exclusive(all, i, j, key);
    }
    ServiceBounds(phases, cost, order, all);
    forall chain | Chain(all, chain) && chain != [] ensures ChainService(all, chain, |chain|, cost) <= Makespan(all, |all|) {
      ChainBound(all, chain, |chain|, cost);
    }
  }

  lemma {:induction false} ServiceBounds(phases: seq<TrafficPhase>, cost: TrafficPhase -> real, order: PhaseId -> nat, all: seq<Entry>)
    requires Schedule(phases, [], cost, order) == Some(all) && Lawful(all, cost)
    ensures forall key :: Weigh(phases, |phases|, Using(key, cost)) <= Makespan(all, |all|)
    ensures Makespan(all, |all|) <= Weigh(phases, |phases|, cost)
  {
    forall key ensures Weigh(phases, |phases|, Using(key, cost)) <= Makespan(all, |all|) {
      TalliesAre(all, |all|, cost, key);
      ScheduleWeighs(phases, [], cost, order, Using(key, cost));
      LoadBound(all, |all|, key);
    }
    TalliesAre(all, |all|, cost, LocalFabric(0));
    ScheduleWeighs(phases, [], cost, order, cost);
    TotalBound(all, |all|);
  }
}
