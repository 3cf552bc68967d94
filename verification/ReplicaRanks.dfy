/** The rank managers of a replica: a call on every rank, and its undoing. */
module ReplicaRanks {
  import opened Common
  import opened KvPool
  import opened KvCache
  import opened KvManager
  import opened KvAdmission
  import opened FreeQueues
  import opened BlockManagers
  import KvRuns

  /** A call that the replica makes on a rank. */
  datatype Call =
    | Admit(req: Req)
    | Grow(req: Req)
    | ShrinkTo(id: RequestId, count: nat)
    | Share(parent: RequestId, child: RequestId)
    | Move(id: RequestId, source: Device, target: Device)
    | Commit(id: RequestId)
    | CommitFinished(req: Req)
    | Drop(id: RequestId)
    | Hold(amount: int)
    | Unhold(limit: Option<int>)

  ghost function Effect(m: Manager, c: Call): (s: Step)
    requires Inv(m)
    ensures Inv(s.after)
  {
    match c
    case Admit(req) => AllocateKeeps(m, req); AllocateOp(m, req)
    case Grow(req) => AppendKeeps(m, req); AppendOp(m, req)
    case ShrinkTo(id, count) => RollbackKeeps(m, id); Step(if |Table(m, id)| > count then RollbackOp(m, id) else m, None)
    case Share(parent, child) => ForkKeeps(m, parent, child); ForkOp(m, parent, child)
    case Move(id, source, target) => SwapKeeps(m, id, source, target); SwapOp(m, id, source, target)
    case Commit(id) => CommitInputKeeps(m, id); Step(CommitInputOp(m, id), None)
    case CommitFinished(req) =>
      CommitInputKeeps(m, req.id);
      RegisterOutputKeeps(CommitInputOp(m, req.id), req);
      Step(RegisterOutputOp(CommitInputOp(m, req.id), req), None)
    case Drop(id) => ReleaseKeeps(m, id); Step(ReleaseOp(m, id), None)
    case Hold(n) => ReserveKeeps(m, n); ReserveOp(m, n)
    case Unhold(count) => ReleaseReservedKeeps(m, count); ReleaseReservedOp(m, count)
  }

  method Perform(rank: BlockManager, c: Call) returns (error: Option<Error>)
    requires rank.Valid()
    modifies rank, rank.gpuQueue, rank.cpuQueue
    ensures Inv(old(rank.State())) && rank.Valid() && Step(rank.State(), error) == Effect(old(rank.State()), c)
  {
    hide Inv, AllocateOp, AppendOp, RollbackOp, ForkOp, SwapOp, CommitInputOp, RegisterOutputOp, ReleaseOp, ReserveOp, ReleaseReservedOp,
      BlockManager.Ready;
    error := None;
    match c {
      case Admit(req) => error := rank.AllocateRequest(req);
      case Grow(req) => error := rank.AppendSlot(req);
      case ShrinkTo(id, count) =>
        ValidInv(rank);
        var n := if id in rank.table then |rank.table[id]| else 0;
        if n > count { rank.RollbackLastBlock(id); }
      case Share(parent, child) => error := rank.ForkRequest(parent, child);
      case Move(id, source, target) => error := rank.SwapRequest(id, source, target);
      case Commit(id) => rank.CommitInputCache(id);
      case CommitFinished(req) =>
        rank.CommitInputCache(req.id);
        rank.RegisterOutput(req);
      case Drop(id) => rank.ReleaseRequest(id);
      case Hold(n) => error := rank.ReserveBlocks(n);
      case Unhold(count) => error := rank.ReleaseReserved(count);
    }
  }

  lemma {:induction false} ValidInv(rank: BlockManager)
    requires rank.Valid()
    ensures Inv(rank.State())
  {
  }

  // ----- ranks side by side -----

  ghost predicate AllInv(states: seq<Manager>) {
    forall k :: 0 <= k < |states| ==> Inv(states[k])
  }

  /** All ranks are in state `s`. */
  ghost predicate Same(states: seq<Manager>, s: Manager) {
    forall k :: 0 <= k < |states| ==> states[k] == s
  }

  /** Rank `k` after the first `n` ranks made the call. */
  ghost predicate Called(before: seq<Manager>, after: seq<Manager>, c: Call, n: nat)
    requires AllInv(before) && n <= |before|
  {
    && |after| == |before|
    && (forall k :: 0 <= k < n ==> Effect(before[k], c).error.None? && after[k] == Effect(before[k], c).after)
    && (forall k :: n <= k < |before| ==> after[k] == before[k])
  }

  /** Rank `n` failed, and those before it have undone their call. */
  ghost predicate Undone(before: seq<Manager>, after: seq<Manager>, c: Call, undo: seq<Call>, n: nat)
    requires AllInv(before) && n < |before| == |undo|
  {
    && |after| == |before|
    && Effect(before[n], c).error.Some? && after[n] == Effect(before[n], c).after
    && (forall k :: 0 <= k < n ==> Effect(before[k], c).error.None? && after[k] == Effect(Effect(before[k], c).after, undo[k]).after)
    && (forall k :: n < k < |before| ==> after[k] == before[k])
  }

  ghost predicate CalledFrom(before: seq<Manager>, after: seq<Manager>, c: Call, n: nat)
    requires AllInv(before) && n <= |before|
  {
    && |after| == |before|
    && (forall k :: n <= k < |before| ==> Effect(before[k], c).error.None? && after[k] == Effect(before[k], c).after)
    && (forall k :: 0 <= k < n ==> after[k] == before[k])
  }

  lemma {:induction false} CalledNone(before: seq<Manager>, c: Call)
    requires AllInv(before)
    ensures Called(before, before, c, 0)
  {
  }

  lemma {:induction false} CalledAt(before: seq<Manager>, after: seq<Manager>, c: Call, i: nat)
    requires AllInv(before) && i < |before| && Called(before, after, c, i)
    ensures |after| == |before| && after[i] == before[i] && Inv(before[i])
  {
  }

  lemma {:induction false} CalledNext(before: seq<Manager>, after: seq<Manager>, c: Call, i: nat)
    requires AllInv(before) && i < |before| && Called(before, after, c, i) && Inv(after[i]) && Effect(after[i], c).error.None?
    ensures Called(before, after[i := Effect(after[i], c).after], c, i + 1)
  {
    hide Effect, Inv;
  }

  /** Rank `n` failed and the ranks from `j` on have undone their call. */
  ghost predicate Undoing(before: seq<Manager>, after: seq<Manager>, c: Call, undo: seq<Call>, n: nat, j: nat)
    requires AllInv(before) && j <= n < |before| == |undo|
  {
    && |after| == |before|
    && Effect(before[n], c).error.Some? && after[n] == Effect(before[n], c).after
    && (forall k :: 0 <= k < n ==> Effect(before[k], c).error.None?)
    && (forall k :: 0 <= k < j ==> after[k] == Effect(before[k], c).after)
    && (forall k :: j <= k < n ==> after[k] == Effect(Effect(before[k], c).after, undo[k]).after)
    && (forall k :: n < k < |before| ==> after[k] == before[k])
  }

  lemma {:induction false} UndoneFrom(before: seq<Manager>, after: seq<Manager>, c: Call, undo: seq<Call>, i: nat)
    requires AllInv(before) && i < |before| == |undo| && Called(before, after, c, i) && Inv(after[i]) && Effect(after[i], c).error.Some?
    ensures Undoing(before, after[i := Effect(after[i], c).after], c, undo, i, i)
  {
    hide Effect, Inv;
  }

  lemma {:induction false} UndoingAt(before: seq<Manager>, after: seq<Manager>, c: Call, undo: seq<Call>, n: nat, j: nat)
    requires AllInv(before) && j < n < |before| == |undo| && Undoing(before, after, c, undo, n, j + 1)
    ensures |after| == |before| && Inv(after[j]) && Undoing(before, after[j := Effect(after[j], undo[j]).after], c, undo, n, j)
  {
    hide Effect, Inv;
  }

  lemma {:induction false} UndoingEnds(before: seq<Manager>, after: seq<Manager>, c: Call, undo: seq<Call>, n: nat)
    requires AllInv(before) && n < |before| == |undo| && Undoing(before, after, c, undo, n, 0)
    ensures Undone(before, after, c, undo, n)
  {
    hide Effect, Inv;
  }

  lemma {:induction false} CalledFromNone(before: seq<Manager>, c: Call)
    requires AllInv(before)
    ensures CalledFrom(before, before, c, |before|)
  {
  }

  lemma {:induction false} CalledFromAt(before: seq<Manager>, after: seq<Manager>, c: Call, i: nat)
    requires AllInv(before) && i < |before| && CalledFrom(before, after, c, i + 1)
    ensures |after| == |before| && after[i] == before[i] && Inv(before[i])
    ensures Effect(after[i], c).error.None? ==> CalledFrom(before, after[i := Effect(after[i], c).after], c, i)
  {
    hide Effect, Inv;
  }

  lemma {:induction false} CalledTogether(before: seq<Manager>, after: seq<Manager>, c: Call, s: Manager)
    requires AllInv(before) && before != [] && Same(before, s) && Called(before, after, c, |before|)
    ensures Inv(s) && Effect(s, c).error.None? && Same(after, Effect(s, c).after)
  {
    hide Effect, Inv;
    assert before[0] == s;
  }

  /** Equal ranks fail together, so the first one fails, and nothing has to be undone. */
  lemma {:induction false} FailedTogether(before: seq<Manager>, after: seq<Manager>, c: Call, undo: seq<Call>, n: nat, s: Manager)
    requires AllInv(before) && n < |before| == |undo| && Same(before, s) && Undone(before, after, c, undo, n)
    ensures Inv(s) && n == 0 && Effect(s, c).error.Some? && after[0] == Effect(s, c).after
    ensures forall k :: 1 <= k < |after| ==> after[k] == s
  {
    hide Effect, Inv;
    assert before[0] == s && before[n] == s;
  }

  /** Two managers have no object in common. */
  ghost predicate Strangers(a: BlockManager, b: BlockManager) {
    a != b && a.gpuQueue != b.gpuQueue && a.gpuQueue != b.cpuQueue && a.cpuQueue != b.gpuQueue && a.cpuQueue != b.cpuQueue
  }

  /** The manager is in the state of a new one. */
  ghost predicate Brand(m: BlockManager, blockSize: nat, gpu: nat, cpu: nat)
    reads m, m.gpuQueue, m.cpuQueue
  {
    m.Valid() && m.State() == KvRuns.NewManager(blockSize, 0, gpu, cpu)
  }

  method NewRank(blockSize: nat, gpu: nat, cpu: nat) returns (rank: BlockManager)
    ensures fresh(rank) && fresh(rank.gpuQueue) && fresh(rank.cpuQueue) && Brand(rank, blockSize, gpu, cpu)
  {
    rank := new BlockManager(blockSize, 0, gpu, cpu);
  }

  /** One fresh manager per rank, with the given numbers of GPU and CPU blocks. */
  method NewRanks(blockSize: nat, gpu: seq<nat>, cpu: seq<nat>) returns (ranks: seq<BlockManager>)
    requires |gpu| == |cpu|
    ensures |ranks| == |gpu| && forall k :: 0 <= k < |ranks| ==>
      fresh(ranks[k]) && fresh(ranks[k].gpuQueue) && fresh(ranks[k].cpuQueue) && Brand(ranks[k], blockSize, gpu[k], cpu[k])
    ensures forall j, k :: 0 <= j < |ranks| && 0 <= k < |ranks| && j != k ==> Strangers(ranks[j], ranks[k])
  {
    hide Brand;
    ranks := [];
    for i := 0 to |gpu|
      invariant |ranks| == i
      invariant forall k :: 0 <= k < i ==> fresh(ranks[k]) && fresh(ranks[k].gpuQueue) && fresh(ranks[k].cpuQueue)
      invariant forall k :: 0 <= k < i ==> Brand(ranks[k], blockSize, gpu[k], cpu[k])
      invariant forall j, k :: 0 <= j < i && 0 <= k < i && j != k ==> Strangers(ranks[j], ranks[k])
    {
      var rank := NewRank(blockSize, gpu[i], cpu[i]);
      ranks := ranks + [rank];
    }
  }

  class Ranks {
    const ranks: seq<BlockManager>

    constructor (members: seq<BlockManager>)
      ensures ranks == members
    {
      ranks := members;
    }

    ghost predicate Apart() {
      forall j, k :: 0 <= j < |ranks| && 0 <= k < |ranks| && j != k ==> Strangers(ranks[j], ranks[k])
    }

    ghost function Queues(): set<object> {
      (set m | m in ranks :: m.gpuQueue) + (set m | m in ranks :: m.cpuQueue)
    }

    ghost predicate Sound()
      reads ranks, Queues()
    {
      ranks != [] && Apart() && forall k :: 0 <= k < |ranks| ==> ranks[k].Valid()
    }

    /** `states` are the states of the ranks. */
    ghost predicate Shows(states: seq<Manager>)
      reads ranks, Queues()
    {
      |states| == |ranks| && forall k :: 0 <= k < |ranks| ==> ranks[k].State() == states[k]
    }

    method PerformAt(i: nat, c: Call, ghost states: seq<Manager>) returns (error: Option<Error>)
      requires Sound() && Shows(states) && i < |ranks|
      modifies ranks[i], ranks[i].gpuQueue, ranks[i].cpuQueue
      ensures Sound() && Inv(states[i])
      ensures Shows(states[i := Effect(states[i], c).after]) && error == Effect(states[i], c).error
    {
      hide BlockManager.Valid, BlockManager.State, Effect, Inv;
      error := Perform(ranks[i], c);
    }

    /** The call on every rank in order; when one fails, those before it undo theirs, last first. */
    method Everywhere(c: Call, undo: seq<Call>, ghost states: seq<Manager>)
      returns (error: Option<Error>, ghost after: seq<Manager>, ghost failed: nat)
      requires Sound() && Shows(states) && |undo| == |ranks|
      modifies ranks, Queues()
      ensures Sound() && Shows(after) && AllInv(states)
      ensures error.None? ==> Called(states, after, c, |ranks|)
      ensures error.Some? ==> failed < |ranks| && Undone(states, after, c, undo, failed) && error == Effect(states[failed], c).error
    {
      hide BlockManager.Valid, BlockManager.State, Effect, Inv, Sound, Shows, Called, Undone, AllInv;
      AllSound(states);
      after, failed := states, 0;
      CalledNone(states, c);
      for i := 0 to |ranks|
        invariant Sound() && Shows(after) && Called(states, after, c, i)
      {
        CalledAt(states, after, c, i);
        error := PerformAt(i, c, after);
        if error.Some? {
          failed := i;
          UndoneFrom(states, after, c, undo, i);
          after := UndoBefore(c, undo, i, states, after[i := Effect(after[i], c).after]);
          return;
        }
        CalledNext(states, after, c, i);
        after := after[i := Effect(after[i], c).after];
      }
      error := None;
    }

    method UndoBefore(c: Call, undo: seq<Call>, i: nat, ghost states: seq<Manager>, ghost start: seq<Manager>)
      returns (ghost after: seq<Manager>)
      requires Sound() && Shows(start) && AllInv(states) && i < |states| == |ranks| == |undo| && Undoing(states, start, c, undo, i, i)
      modifies ranks, Queues()
      ensures Sound() && Shows(after) && Undone(states, after, c, undo, i)
    {
      hide BlockManager.Valid, BlockManager.State, Effect, Inv, Sound, Shows, Undoing, Undone, AllInv;
      after := start;
      for j := i downto 0
        invariant Sound() && Shows(after) && Undoing(states, after, c, undo, i, j)
      {
        UndoingAt(states, after, c, undo, i, j);
        var ignored := PerformAt(j, undo[j], after);
        after := after[j := Effect(after[j], undo[j]).after];
      }
      UndoingEnds(states, after, c, undo, i);
    }

    lemma {:induction false} AllSound(states: seq<Manager>)
      requires Sound() && Shows(states)
      ensures AllInv(states) && |states| == |ranks| && ranks != []
    {
      hide Inv;
      forall k | 0 <= k < |states| ensures Inv(states[k]) { ValidInv(ranks[k]); }
    }

    /** The call on every rank, last first; the first failure ends it. */
    method Backwards(c: Call, ghost states: seq<Manager>)
      returns (error: Option<Error>, ghost after: seq<Manager>, ghost failed: nat)
      requires Sound() && Shows(states)
      modifies ranks, Queues()
      ensures Sound() && Shows(after) && AllInv(states)
      ensures error.None? ==> CalledFrom(states, after, c, 0)
      ensures error.Some? ==>
        && failed < |ranks| && error == Effect(states[failed], c).error
        && CalledFrom(states, after[failed := states[failed]], c, failed + 1) && after[failed] == Effect(states[failed], c).after
    {
      hide BlockManager.Valid, BlockManager.State, Effect, Inv, Sound, Shows, CalledFrom, AllInv;
      AllSound(states);
      after, failed := states, 0;
      CalledFromNone(states, c);
      for i := |ranks| downto 0
        invariant Sound() && Shows(after) && CalledFrom(states, after, c, i)
      {
        CalledFromAt(states, after, c, i);
        error := PerformAt(i, c, after);
        if error.Some? {
          failed := i;
          assert after[i := Effect(after[i], c).after][i := states[i]] == after;
          after := after[i := Effect(after[i], c).after];
          return;
        }
        after := after[i := Effect(after[i], c).after];
      }
      error := None;
    }
  }
}
