/** The life of requests over whole runs: arriving, being scheduled, advancing, finishing, being cancelled. */
module SchedulingRuns {
  import opened Common
  import opened PrefixKeys
  import opened KvPool
  import opened KvCache
  import opened KvManager
  import opened Scheduling
  import opened SchedulingSteps
  import opened SchedulingResults

  // ----- one request -----

  /** `advance`: the pass that completes the context samples a token, any other only adds to the computed tokens. */
  function Advanced(r: Request): Request {
    var build := ContextBuild(r);
    var tokens := if r.scheduled > 0 then r.scheduled else Max(1, ContextLen(r) - r.computed);
    var computed := r.computed + tokens;
    if computed < ContextLen(r) then r.(computed := computed, scheduled := 0)
    else
      var output := Max(1, Min(if build then 1 else tokens, r.prompt.decodeLen - r.generated));
      r.(computed := computed, scheduled := 0, recompute := false, generated := r.generated + output, logical := r.logical + output)
  }

  lemma {:induction false} DivNext(a: nat, k: nat)
    requires k > 0
    ensures Div(a, k) <= Div(a + 1, k) <= Div(a, k) + 1
    decreases a
  {
    if a >= k { DivNext(a - k, k); }
  }

  /** Advancing a scheduled request keeps the books, and it needs at most one block more than it holds. */
  lemma {:induction false} AdvanceOk(r: Request, blockSize: nat, held: nat)
    requires RequestOk(r) && blockSize > 0 && 1 <= r.scheduled <= ContextLen(r) - r.computed
    requires held == LogicalBlocks(blockSize, r) && (!ContextBuild(r) ==> r.scheduled == 1)
    ensures var s := Advanced(r);
      && s.prompt == r.prompt && s.scheduled == 0 && s.logical == ContextLen(s) && s.generated <= r.prompt.decodeLen
      && (Done(s) || RequestOk(s))
      && (if ContextBuild(s) then held == LogicalBlocks(blockSize, s)
          else LogicalBlocks(blockSize, s) - 1 <= held <= LogicalBlocks(blockSize, s))
  {
    DivNext(r.logical + blockSize - 1, blockSize);
  }

  // ----- completing a step -----

  function AdvanceAll(w: World, ids: seq<RequestId>, n: nat): (v: World)
    requires n <= |ids|
    ensures v == w.(requests := v.requests)
  {
    if n == 0 then w
    else
      var v := AdvanceAll(w, ids, n - 1);
      v.(requests := v.requests[ids[n - 1] := Advanced(Get(v, ids[n - 1]))])
  }

  /** `update`, first loop: requests that have produced a token publish their input blocks. */
  ghost function CommitAll(w: World, ids: seq<RequestId>, n: nat): (v: World)
    requires Inv(w.kv) && n <= |ids|
    ensures Inv(v.kv) && v == w.(kv := v.kv)
  {
    if n == 0 then w
    else
      var v := CommitAll(w, ids, n - 1);
      CommitInputKeeps(v.kv, ids[n - 1]);
      if Get(w, ids[n - 1]).generated > 0 then v.(kv := CommitInputOp(v.kv, ids[n - 1])) else v
  }

  /** `update`, second loop: finished requests give up their blocks. */
  ghost function FreeAll(w: World, ids: seq<RequestId>, n: nat): (v: World)
    requires Inv(w.kv) && n <= |ids|
    ensures Inv(v.kv) && v == w.(kv := v.kv)
  {
    if n == 0 then w
    else
      var v := FreeAll(w, ids, n - 1);
      FreeKeeps(v.kv, KvReq(v, ids[n - 1]));
      if Done(Get(w, ids[n - 1])) then v.(kv := FreeOp(v.kv, KvReq(v, ids[n - 1]))) else v
  }

  function Unfinished(w: World, ids: seq<RequestId>, n: nat): seq<RequestId>
    requires n <= |ids|
  {
    if n == 0 then []
    else if Done(Get(w, ids[n - 1])) then Unfinished(w, ids, n - 1)
    else Unfinished(w, ids, n - 1) + [ids[n - 1]]
  }

  /** The scheduled requests advance and the scheduler is updated. */
  ghost function Complete(w: World, ids: seq<RequestId>): (v: World)
    requires Inv(w.kv)
    ensures Inv(v.kv)
  {
    var advanced := AdvanceAll(w, ids, |ids|);
    var updated := FreeAll(CommitAll(advanced, ids, |ids|), ids, |ids|);
    updated.(running := Unfinished(updated, updated.running, |updated.running|))
  }

  // ----- what completing does, request by request -----

  lemma {:induction false} AdvanceAllAt(w: World, ids: seq<RequestId>, n: nat, id: RequestId)
    requires n <= |ids| && NoRepeats(ids)
    ensures Get(AdvanceAll(w, ids, n), id) == if id in ids[..n] then Advanced(Get(w, id)) else Get(w, id)
    ensures id in w.requests ==> id in AdvanceAll(w, ids, n).requests
    decreases n
  {
    hide Advanced;
    if n > 0 {
      AdvanceAllAt(w, ids, n - 1, id);
      assert ids[..n] == ids[..n - 1] + [ids[n - 1]];
      assert ids[n - 1] !in ids[..n - 1];
      AdvanceAllAt(w, ids, n - 1, ids[n - 1]);
    }
  }

  lemma {:induction false} CommitTable(m: Manager, id: RequestId)
    requires Inv(m)
    ensures CommitInputOp(m, id).table == m.table && CommitInputOp(m, id).blockSize == m.blockSize && CommitInputOp(m, id).reserved == m.reserved
  {
    hide Consistent, RegisterMany;
  }

  lemma {:induction false} CommitAllTable(w: World, ids: seq<RequestId>, n: nat)
    requires Inv(w.kv) && n <= |ids|
    ensures var v := CommitAll(w, ids, n); v.kv.table == w.kv.table && v.kv.blockSize == w.kv.blockSize && v.kv.reserved == w.kv.reserved
    decreases n
  {
    hide Inv, CommitInputOp;
    if n > 0 {
      CommitAllTable(w, ids, n - 1);
      CommitTable(CommitAll(w, ids, n - 1).kv, ids[n - 1]);
    }
  }

  lemma {:induction false} FreeTable(m: Manager, req: Req, other: RequestId)
    requires Inv(m)
    ensures Table(FreeOp(m, req), other) == if other == req.id then [] else Table(m, other)
    ensures FreeOp(m, req).blockSize == m.blockSize && FreeOp(m, req).reserved == m.reserved
  {
    hide Consistent, CommitInputOp, RegisterOutputOp, ReleaseOp;
    CommitInputKeeps(m, req.id);
    CommitTable(m, req.id);
    var a := CommitInputOp(m, req.id);
    RegisterOutputKeeps(a, req);
    OutputSetting(a, req);
    ReleaseTable(RegisterOutputOp(a, req), req.id, other);
  }

  lemma {:induction false} OutputSetting(m: Manager, req: Req)
    requires Inv(m)
    ensures RegisterOutputOp(m, req).blockSize == m.blockSize
  {
    hide Consistent, RegisterMany;
  }

  lemma {:induction false} FreeAllTable(w: World, ids: seq<RequestId>, n: nat, id: RequestId)
    requires Inv(w.kv) && n <= |ids|
    ensures var v := FreeAll(w, ids, n);
      && Table(v.kv, id) == (if id in ids[..n] && Done(Get(w, id)) then [] else Table(w.kv, id))
      && v.kv.blockSize == w.kv.blockSize && v.kv.reserved == w.kv.reserved
    decreases n
  {
    hide Inv, FreeOp;
    if n > 0 {
      FreeAllTable(w, ids, n - 1, id);
      assert ids[..n] == ids[..n - 1] + [ids[n - 1]];
      FreeTable(FreeAll(w, ids, n - 1).kv, KvReq(FreeAll(w, ids, n - 1), ids[n - 1]), id);
    }
  }

  lemma {:induction false} Appended(ids: seq<RequestId>, last: RequestId, all: seq<RequestId>, id: RequestId)
    requires all == ids + [last]
    ensures multiset(all)[id] == multiset(ids)[id] + if last == id then 1 else 0
  {
  }

  lemma {:induction false} UnfinishedAre(w: World, ids: seq<RequestId>, n: nat, id: RequestId)
    requires n <= |ids|
    ensures multiset(Unfinished(w, ids, n))[id] == if Done(Get(w, id)) then 0 else multiset(ids[..n])[id]
    decreases n
  {
    hide Done, Get;
    if n > 0 {
      UnfinishedAre(w, ids, n - 1, id);
      var last := ids[n - 1];
      Appended(ids[..n - 1], last, ids[..n], id);
      if !Done(Get(w, last)) { Appended(Unfinished(w, ids, n - 1), last, Unfinished(w, ids, n), id); }
    }
  }

  /** All of the above for one request. */
  lemma {:induction false} CompleteAt(w: World, ids: seq<RequestId>, u: World, id: RequestId)
    requires Inv(w.kv) && NoRepeats(ids) && u == Complete(w, ids)
    ensures Get(u, id) == (if id in ids then Advanced(Get(w, id)) else Get(w, id)) && (id in w.requests ==> id in u.requests)
    ensures Table(u.kv, id) == if id in ids && Done(Get(u, id)) then [] else Table(w.kv, id)
    ensures u.kv.blockSize == w.kv.blockSize && u.kv.reserved == w.kv.reserved && u.waiting == w.waiting
    ensures u.config == w.config && u.arrival == w.arrival
    ensures multiset(u.running)[id] == if Done(Get(u, id)) then 0 else multiset(w.running)[id]
  {
    hide Inv, Advanced, AdvanceAll, CommitAll, FreeAll, Unfinished, Done;
    var a := AdvanceAll(w, ids, |ids|);
    var b := CommitAll(a, ids, |ids|);
    var c := FreeAll(b, ids, |ids|);
    AdvanceAllAt(w, ids, |ids|, id);
    CommitAllTable(a, ids, |ids|);
    FreeAllTable(b, ids, |ids|, id);
    UnfinishedAre(c, c.running, |c.running|, id);
    assert ids[..|ids|] == ids && c.running[..|c.running|] == c.running;
  }

  /** Every scheduled request is a running one with the tokens and blocks the step promised. */
  ghost predicate Promised(w: World, ids: seq<RequestId>) {
    NoRepeats(ids) && forall k :: 0 <= k < |ids| ==> ids[k] in w.running && ScheduledOk(w, ids[k])
  }

  lemma {:induction false} ScheduledHolds(w: World, ids: seq<RequestId>, id: RequestId)
    requires WorldOk(w, []) && Promised(w, ids) && id in ids
    ensures id in w.requests && RequestOk(Get(w, id)) && |Table(w.kv, id)| == LogicalBlocks(w.kv.blockSize, Get(w, id))
    ensures var r := Get(w, id); 1 <= r.scheduled <= ContextLen(r) - r.computed && (!ContextBuild(r) ==> r.scheduled == 1)
  {
    var k :| 0 <= k < |ids| && ids[k] == id;
    assert ids[k] in w.running && ScheduledOk(w, ids[k]);
    assert IdOk(w, [], id);
    assert id in multiset(w.running);
  }

  lemma {:induction false} CompleteId(w: World, ids: seq<RequestId>, u: World, id: RequestId)
    requires WorldOk(w, []) && Promised(w, ids) && u == Complete(w, ids)
    ensures IdOk(u, [], id)
  {
    hide Inv, Complete, Advanced, LogicalBlocks, ScheduledOk, RequestOk;
    assert IdOk(w, [], id);
    CompleteAt(w, ids, u, id);
    assert id in u.running <==> id in multiset(u.running);
    assert id in w.running <==> id in multiset(w.running);
    if id in ids {
      ScheduledHolds(w, ids, id);
      AdvanceOk(Get(w, id), w.kv.blockSize, |Table(w.kv, id)|);
      assert id in multiset(w.running);
    } else if id in Everyone(w, []) {
      NotDone(Get(w, id));
    }
  }

  lemma {:induction false} NotDone(r: Request)
    requires RequestOk(r)
    ensures !Done(r)
  {
  }

  /** Completing a step leaves every remaining request with consistent counters and the right number of blocks. */
  lemma {:induction false} CompleteKeeps(w: World, ids: seq<RequestId>)
    requires WorldOk(w, []) && Promised(w, ids)
    ensures WorldOk(Complete(w, ids), [])
  {
    var u := Complete(w, ids);
    CompleteAt(w, ids, u, 0);
    hide Complete, IdOk;
    forall id ensures IdOk(u, [], id) { CompleteId(w, ids, u, id); }
  }

  lemma {:induction false} CountTwice(s: seq<RequestId>, i: nat, j: nat)
    requires i < j < |s| && s[i] == s[j]
    ensures multiset(s)[s[i]] >= 2
  {
    var id := s[i];
    assert s == s[..i] + [id] + s[i + 1..j] + [id] + s[j + 1..];
  }

  lemma {:induction false} ScheduledUniquely(p: Progress, everyone: multiset<RequestId>, budget: Option<nat>)
    requires ProgressOk(p, everyone, budget)
    ensures Promised(p.world, p.scheduled)
  {
    forall i, j | 0 <= i < j < |p.scheduled| ensures p.scheduled[i] != p.scheduled[j] {
      assert IdOk(p.world, p.queue, p.scheduled[i]);
      if p.scheduled[i] == p.scheduled[j] { CountTwice(p.scheduled, i, j); }
    }
  }

  // ----- runs -----

  datatype Event = Arrive(id: RequestId, prompt: Prompt, time: real) | Tick(throttle: bool) | Cancel(id: RequestId)

  function NewRequest(prompt: Prompt): Request {
    Request(prompt, 0, 0, 0, prompt.prefillLen, false, false)
  }

  /** A new request waits at the end; a tick schedules, computes and updates; a cancelled request leaves and gives up its blocks. */
  ghost function Happen(w: World, e: Event): (v: World)
    requires Inv(w.kv)
    ensures Inv(v.kv)
  {
    match e
    case Arrive(id, prompt, time) =>
      w.(requests := w.requests[id := NewRequest(prompt)], arrival := w.arrival[id := time], waiting := w.waiting + [id])
    case Tick(throttle) => Complete(Schedule(w, throttle).world, Schedule(w, throttle).scheduled)
    case Cancel(id) =>
      ReleaseKeeps(w.kv, id);
      w.(running := Without(w.running, id), waiting := Without(w.waiting, id), kv := ReleaseOp(w.kv, id))
  }

  /** Requests arrive once, with something to read and something to write. */
  ghost predicate Lawful(w: World, e: Event) {
    e.Arrive? ==> e.id !in w.running && e.id !in w.waiting && e.prompt.prefillLen >= 1 && e.prompt.decodeLen >= 1
  }

  lemma {:induction false} ArriveKeeps(w: World, e: Event)
    requires WorldOk(w, []) && e.Arrive? && Lawful(w, e)
    ensures WorldOk(Happen(w, e), [])
  {
    hide Inv;
    var v := Happen(w, e);
    assert multiset(v.waiting) == multiset(w.waiting) + multiset{e.id};
    forall id ensures IdOk(v, [], id) {
      assert IdOk(w, [], id) && IdOk(w, [], e.id);
      assert e.id !in multiset(w.running) && e.id !in multiset(w.waiting);
    }
  }

  lemma {:induction false} CancelId(w: World, v: World, gone: RequestId, id: RequestId)
    requires IdOk(w, [], id) && v.requests == w.requests && v.kv.blockSize == w.kv.blockSize
    requires Table(v.kv, id) == if id == gone then [] else Table(w.kv, id)
    requires multiset(v.running)[id] == if id == gone then 0 else multiset(w.running)[id]
    requires multiset(v.waiting)[id] == if id == gone then 0 else multiset(w.waiting)[id]
    ensures IdOk(v, [], id)
  {
    hide RequestOk, LogicalBlocks;
    assert id in v.running <==> id in multiset(v.running);
    assert id in w.running <==> id in multiset(w.running);
  }

  lemma {:induction false} CancelKeeps(w: World, e: Event)
    requires WorldOk(w, []) && e.Cancel?
    ensures WorldOk(Happen(w, e), [])
  {
    hide Inv, ReleaseOp, IdOk;
    var v := Happen(w, e);
    assert w.running[..|w.running|] == w.running && w.waiting[..|w.waiting|] == w.waiting;
    ReleaseTable(w.kv, e.id, e.id);
    forall id ensures IdOk(v, [], id) {
      assert IdOk(w, [], id);
      ReleaseTable(w.kv, e.id, id);
      WithoutCount(w.running, e.id, id);
      WithoutCount(w.waiting, e.id, id);
      CancelId(w, v, e.id, id);
    }
  }

  lemma {:induction false} TickKeeps(w: World, e: Event)
    requires WorldOk(w, []) && e.Tick?
    ensures WorldOk(Happen(w, e), [])
  {
    hide Schedule, Complete, IdOk;
    ScheduleKeeps(w, e.throttle);
    var p := Schedule(w, e.throttle);
    ScheduledUniquely(p, Everyone(w, []), w.config.budget);
    CompleteKeeps(p.world, p.scheduled);
  }

  ghost function Run(w: World, events: seq<Event>): (v: World)
    requires Inv(w.kv)
    ensures Inv(v.kv)
    decreases |events|
  {
    if events == [] then w else Run(Happen(w, events[0]), events[1..])
  }

  ghost predicate LawfulRun(w: World, events: seq<Event>)
    requires Inv(w.kv)
    decreases |events|
  {
    events == [] || (Lawful(w, events[0]) && LawfulRun(Happen(w, events[0]), events[1..]))
  }

  /**
    Over any run logical tokens equal prompt plus generated tokens, a request past context build has
    computed all but its newest token, waiting requests hold no blocks, a context under construction
    holds exactly its logical blocks and a decoding request lacks at most the newest one.
   */
  lemma {:induction false} RunsAreConsistent(w: World, events: seq<Event>)
    requires WorldOk(w, []) && LawfulRun(w, events)
    ensures WorldOk(Run(w, events), [])
    decreases |events|
  {
    hide IdOk, Happen;
    if events != [] {
      var e := events[0];
      match e {
        case Arrive(_, _, _) => ArriveKeeps(w, e);
        case Tick(_) => TickKeeps(w, e);
        case Cancel(_) => CancelKeeps(w, e);
      }
      RunsAreConsistent(Happen(w, e), events[1..]);
    }
  }
}
