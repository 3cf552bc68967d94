/** `ReplicaKVBlockManager`: one scheduler-visible cache backed by one block manager per rank. */
module ReplicaManagers {
  import opened Common
  import opened KvPool
  import opened KvCache
  import opened KvManager
  import opened KvAdmission
  import opened FreeQueues
  import opened BlockManagers
  import opened ReplicaRanks
  import opened ReplicaMappings
  import opened KvReservation
  import KvRuns

  ghost function Clones(s: Manager, n: nat): (states: seq<Manager>)
    ensures |states| == n && Same(states, s)
  {
    if n == 0 then [] else Clones(s, n - 1) + [s]
  }

  function Repeated(c: Call, n: nat): (calls: seq<Call>)
    ensures |calls| == n
  {
    if n == 0 then [] else Repeated(c, n - 1) + [c]
  }

  // ----- the replica as one manager -----

  /** What the scheduler sees: one block manager, and the requests it knows. */
  datatype View = View(state: Manager, owners: set<RequestId>)

  datatype Outcome = Outcome(view: View, error: Option<Error>)

  ghost function AllocateAll(v: View, req: Req): (o: Outcome)
    requires Inv(v.state)
    ensures Inv(o.view.state)
  {
    AllocateKeeps(v.state, req);
    if req.id in v.owners then Outcome(v, Some(SimulationStateError))
    else if !CanAllocate(v.state, req) then Outcome(v, Some(OutOfBlocksError))
    else Outcome(View(AllocateOp(v.state, req).after, v.owners + {req.id}), None)
  }

  ghost function AppendAll(v: View, req: Req): (o: Outcome)
    requires Inv(v.state)
    ensures Inv(o.view.state)
  {
    AppendKeeps(v.state, req);
    if req.id !in v.owners then Outcome(v, Some(SimulationStateError))
    else if !CanAppend(v.state, req, 0) then Outcome(v, Some(OutOfBlocksError))
    else Outcome(v.(state := AppendOp(v.state, req).after), None)
  }

  ghost function ForkAll(v: View, parent: RequestId, child: RequestId): (o: Outcome)
    requires Inv(v.state)
    ensures Inv(o.view.state)
  {
    ForkKeeps(v.state, parent, child);
    if parent !in v.owners || child in v.owners then Outcome(v, Some(SimulationStateError))
    else
      var s := ForkOp(v.state, parent, child);
      Outcome(if s.error.None? then View(s.after, v.owners + {child}) else v, s.error)
  }

  predicate CanSwap(m: Manager, id: RequestId, target: Device) {
    Table(m, id) != [] && NumFree(PoolOf(m.cache, target)) >= |Table(m, id)|
  }

  ghost function SwapAll(v: View, id: RequestId, source: Device, target: Device): (o: Outcome)
    requires Inv(v.state)
    ensures Inv(o.view.state)
  {
    SwapKeeps(v.state, id, source, target);
    if id !in v.owners then Outcome(v, Some(SimulationStateError))
    else if !CanSwap(v.state, id, target) then Outcome(v, Some(OutOfBlocksError))
    else
      var s := SwapOp(v.state, id, source, target);
      Outcome(if s.error.None? then v.(state := s.after) else v, s.error)
  }

  ghost function CommitAll(v: View, id: RequestId): (o: Outcome)
    requires Inv(v.state)
    ensures Inv(o.view.state)
  {
    CommitInputKeeps(v.state, id);
    if id !in v.owners then Outcome(v, Some(SimulationStateError)) else Outcome(v.(state := CommitInputOp(v.state, id)), None)
  }

  ghost function CommitFinishedAll(v: View, req: Req): (o: Outcome)
    requires Inv(v.state)
    ensures Inv(o.view.state)
  {
    if req.id !in v.owners then Outcome(v, Some(SimulationStateError))
    else Outcome(v.(state := Effect(v.state, CommitFinished(req)).after), None)
  }

  ghost function ReleaseAll(v: View, id: RequestId): (o: Outcome)
    requires Inv(v.state)
    ensures Inv(o.view.state)
  {
    ReleaseKeeps(v.state, id);
    if id !in v.owners then Outcome(v, Some(SimulationStateError))
    else Outcome(View(ReleaseOp(v.state, id), v.owners - {id}), None)
  }

  ghost function FreeAll(v: View, req: Req): (o: Outcome)
    requires Inv(v.state)
    ensures Inv(o.view.state)
  {
    var committed := CommitFinishedAll(v, req);
    if committed.error.Some? then committed else ReleaseAll(committed.view, req.id)
  }

  ghost function UnreserveAll(v: View, count: Option<int>): (o: Outcome)
    requires Inv(v.state)
    ensures Inv(o.view.state)
  {
    ReleaseReservedKeeps(v.state, count);
    var s := ReleaseReservedOp(v.state, count);
    Outcome(v.(state := s.after), s.error)
  }

  ghost function ReserveAll(v: View, n: int): (o: Outcome)
    requires Inv(v.state)
    ensures Inv(o.view.state)
  {
    ReserveKeeps(v.state, n);
    var s := ReserveOp(v.state, n);
    Outcome(v.(state := s.after), s.error)
  }

  /** Whether equal ranks stay equal when each is asked to reserve `n` blocks. */
  ghost predicate Steady(s: Manager, n: int, ranks: nat) {
    ranks == 1 || n <= 0 || n <= NumFree(s.cache.gpu) || Settled(s.cache.gpu)
  }

  datatype Command =
    | Enter(req: Req)
    | Extend(req: Req)
    | Branch(parent: RequestId, child: RequestId)
    | Shift(id: RequestId, toGpu: bool)
    | Publish(id: RequestId)
    | PublishAll(req: Req)
    | Leave(id: RequestId)
    | Finish(req: Req)
    | SetAside(amount: int)
    | PutBack(limit: Option<int>)

  /** One call on a single manager. */
  ghost function Does(v: View, c: Command): (o: Outcome)
    requires Inv(v.state)
    ensures Inv(o.view.state)
  {
    match c
    case Enter(req) => AllocateAll(v, req)
    case Extend(req) => AppendAll(v, req)
    case Branch(parent, child) => ForkAll(v, parent, child)
    case Shift(id, toGpu) => if toGpu then SwapAll(v, id, CPU, GPU) else SwapAll(v, id, GPU, CPU)
    case Publish(id) => CommitAll(v, id)
    case PublishAll(req) => CommitFinishedAll(v, req)
    case Leave(id) => ReleaseAll(v, id)
    case Finish(req) => FreeAll(v, req)
    case SetAside(n) => ReserveAll(v, n)
    case PutBack(count) => UnreserveAll(v, count)
  }

  ghost function After(v: View, commands: seq<Command>): (w: View)
    requires Inv(v.state)
    ensures Inv(w.state)
    decreases |commands|
  {
    if commands == [] then v else After(Does(v, commands[0]).view, commands[1..])
  }

  ghost predicate SteadyRun(v: View, commands: seq<Command>, ranks: nat)
    requires Inv(v.state)
    decreases |commands|
  {
    commands == [] ||
    ((commands[0].SetAside? ==> Steady(v.state, commands[0].amount, ranks)) && SteadyRun(Does(v, commands[0]).view, commands[1..], ranks))
  }

  /** Two ranks with one block each, asked for two: the first has used its block, the second has not. */
  lemma {:induction false} LockstepBreaks()
    ensures var s := KvRuns.NewManager(1, 0, 1, 0); !Steady(s, 2, 2) && ReserveOp(s, 2).error.Some? && ReserveOp(s, 2).after != s
  {
    hide Inv, ReserveOp;
    var s := KvRuns.NewManager(1, 0, 1, 0);
    ReserveFails(s, 2);
    FailureUndone(s, 2);
  }

  method SameDevice(rows: seq<seq<Ref>>, i: nat) returns (ok: bool)
    requires rows != [] && Square(rows, |rows[0]|) && i < |rows[0]|
    ensures ok <==> OneDevice(rows, i)
  {
    for k := 0 to |rows|
      invariant forall j :: 0 <= j < k ==> rows[j][i].device == rows[0][i].device
    {
      if rows[k][i].device != rows[0][i].device { return false; }
    }
    ok := true;
  }

  class ReplicaManager {
    const group: Ranks
    var owners: set<RequestId>
    var mappings: Mappings

    /** One rank per pair of capacities, at least one; nobody owns anything. */
    constructor (blockSize: nat, gpu: seq<nat>, cpu: seq<nat>)
      requires |gpu| == |cpu| && gpu != []
      ensures fresh(group) && fresh(group.ranks) && fresh(group.Queues()) && group.Sound()
      ensures |group.ranks| == |gpu| && owners == {} && mappings == map[]
      ensures forall k :: 0 <= k < |gpu| ==> group.ranks[k].State() == KvRuns.NewManager(blockSize, 0, gpu[k], cpu[k])
      ensures (forall k :: 0 <= k < |gpu| ==> gpu[k] == gpu[0] && cpu[k] == cpu[0]) ==> Valid()
    {
      hide BlockManager.Valid, BlockManager.State, Mapped;
      var members := NewRanks(blockSize, gpu, cpu);
      group := new Ranks(members);
      owners, mappings := {}, map[];
      new;
      NothingMapped(|gpu|, KvRuns.NewManager(blockSize, 0, gpu[0], cpu[0]));
    }

    ghost function Leader(): Manager
      requires group.ranks != []
      reads group.ranks, group.Queues()
    {
      group.ranks[0].State()
    }

    /** All ranks are in state `s`. */
    ghost predicate Lockstep(s: Manager)
      reads group.ranks, group.Queues()
    {
      forall k :: 0 <= k < |group.ranks| ==> group.ranks[k].State() == s
    }

    ghost predicate Valid()
      reads this, group.ranks, group.Queues()
    {
      group.Sound() && Lockstep(Leader()) && Mapped(mappings, |group.ranks|, Leader(), owners)
    }

    // ----- reading the ranks -----

    method CollectRows(id: RequestId, ghost states: seq<Manager>) returns (rows: seq<seq<Ref>>)
      requires group.Shows(states)
      ensures rows == Rows(states, id, |states|)
    {
      hide BlockManager.CacheState;
      rows := [];
      for k := 0 to |group.ranks|
        invariant rows == Rows(states, id, k)
      {
        var rank := group.ranks[k];
        assert rank.State() == states[k];
        rows := rows + [if id in rank.table then rank.table[id] else []];
      }
    }

    method RebuildMappings(id: RequestId, ghost states: seq<Manager>) returns (error: Option<Error>)
      requires group.Shows(states) && states != []
      modifies this`mappings
      ensures var rows := Rows(states, id, |states|);
        && (error.None? <==> Square(rows, |rows[0]|) && forall i :: 0 <= i < |rows[0]| ==> OneDevice(rows, i))
        && (error.None? ==> mappings == Built(old(mappings), rows, id, |rows[0]|))
        && (error.Some? ==> error.value == SimulationStateError)
    {
      hide BlockManager.State, Rows, OneDevice, Column;
      var rows := CollectRows(id, states);
      assert |rows| == |states|;
      for k := 0 to |rows|
        invariant forall j :: 0 <= j < k ==> |rows[j]| == |rows[0]|
      {
        if |rows[k]| != |rows[0]| { return Some(SimulationStateError); }
      }
      mappings := Forgotten(mappings, id);
      for i := 0 to |rows[0]|
        invariant mappings == Built(old(mappings), rows, id, i)
        invariant forall j :: 0 <= j < i ==> OneDevice(rows, j)
      {
        var ok := SameDevice(rows, i);
        if !ok { return Some(SimulationStateError); }
        mappings := mappings[(id, i) := Mapping(rows[0][i].device, Column(rows, i, |rows|))];
      }
      error := None;
    }

    method CheckBlock(rows: seq<seq<Ref>>, id: RequestId, i: nat, ghost states: seq<Manager>) returns (ok: bool)
      requires group.Shows(states) && states != [] && |rows| == |states| && forall k :: 0 <= k < |rows| ==> i < |rows[k]|
      ensures ok <==> BlockChecks(states, mappings, rows, id, i)
    {
      hide FreeBlockQueue.Queue;
      if (id, i) !in mappings { return false; }
      var shards := mappings[(id, i)].shards;
      if |shards| != |group.ranks| { return false; }
      var first := 0;
      for k := 0 to |shards|
        invariant forall j :: 0 <= j < k ==> shards[j] == rows[j][i]
        invariant forall j :: 0 <= j < k ==> Refs(states[j].cache, rows[j][i]) == first
        invariant k > 0 ==> first == Refs(states[0].cache, rows[0][i])
      {
        if shards[k] != rows[k][i] { return false; }
        var rank := group.ranks[k];
        assert rank.State() == states[k];
        var blocks := if shards[k].device.GPU? then rank.gpuBlocks else rank.cpuBlocks;
        var refs := if shards[k].number < |blocks| then blocks[shards[k].number].refs else 0;
        assert refs == Refs(states[k].cache, rows[k][i]);
        if k == 0 { first := refs; }
        if refs != first { return false; }
      }
      assert shards == Column(rows, i, |rows|);
      ok := true;
    }

    method CheckPools(ghost states: seq<Manager>) returns (ok: bool)
      requires group.Sound() && group.Shows(states)
      ensures ok <==> forall k :: 0 <= k < |states| ==> WithinPools(states[k])
    {
      hide BlockManager.Ready, NumFree;
      for k := 0 to |group.ranks|
        invariant forall j :: 0 <= j < k ==> WithinPools(states[j])
      {
        var rank := group.ranks[k];
        assert rank.State() == states[k];
        QueuesValid(rank);
        var gpu := rank.FreeBlocks(GPU);
        var cpu := rank.FreeBlocks(CPU);
        if rank.gpuCapacity - gpu > rank.gpuCapacity || rank.cpuCapacity - cpu > rank.cpuCapacity { return false; }
      }
      ok := true;
    }

    method ValidateInvariants(id: RequestId, ghost states: seq<Manager>) returns (error: Option<Error>)
      requires group.Sound() && group.Shows(states) && states != []
      ensures error.None? <==> Checks(states, mappings, owners, id)
      ensures error.Some? ==> error.value == SimulationStateError
    {
      hide BlockManager.State, BlockManager.Ready, Rows, BlockChecks, WithinPools;
      if id !in owners { return Some(SimulationStateError); }
      var rows := CollectRows(id, states);
      assert |rows| == |states|;
      for k := 0 to |rows|
        invariant forall j :: 0 <= j < k ==> |rows[j]| == |rows[0]|
      {
        if |rows[k]| != |rows[0]| { return Some(SimulationStateError); }
      }
      for i := 0 to |rows[0]|
        invariant forall j :: 0 <= j < i ==> BlockChecks(states, mappings, rows, id, j)
      {
        var ok := CheckBlock(rows, id, i, states);
        if !ok { return Some(SimulationStateError); }
      }
      var ok := CheckPools(states);
      error := if ok then None else Some(SimulationStateError);
    }

    // ----- equal ranks act as one -----

    lemma {:induction false} Showing(s: Manager)
      requires Lockstep(s)
      ensures group.Shows(Clones(s, |group.ranks|))
    {
      hide BlockManager.State;
    }

    /** A call on all of several equal ranks succeeds on all, or fails on the first. */
    method Together(c: Call, undo: seq<Call>, ghost s: Manager) returns (error: Option<Error>)
      requires group.Sound() && Lockstep(s) && |undo| == |group.ranks|
      modifies group.ranks, group.Queues()
      ensures group.Sound() && Inv(s) && error == Effect(s, c).error
      ensures error.None? ==> Lockstep(Effect(s, c).after)
      ensures error.Some? && Effect(s, c).after == s ==> Lockstep(s)
      ensures error.Some? ==> Leader() == Effect(s, c).after && forall k :: 1 <= k < |group.ranks| ==> group.ranks[k].State() == s
    {
      hide BlockManager.State, BlockManager.Valid, Effect, Inv, Called, Undone, AllInv;
      Showing(s);
      ghost var states := Clones(s, |group.ranks|);
      ghost var after, failed;
      error, after, failed := group.Everywhere(c, undo, states);
      if error.None? {
        CalledTogether(states, after, c, s);
      } else {
        FailedTogether(states, after, c, undo, failed, s);
      }
    }

    /** The same, last rank first; the calls made this way leave the ranks alone when they fail. */
    method TogetherBack(c: Call, ghost s: Manager) returns (error: Option<Error>)
      requires group.Sound() && Lockstep(s) && (Inv(s) && Effect(s, c).error.Some? ==> Effect(s, c).after == s)
      modifies group.ranks, group.Queues()
      ensures group.Sound() && Inv(s) && error == Effect(s, c).error && Lockstep(Effect(s, c).after)
    {
      hide BlockManager.State, BlockManager.Valid, Effect, Inv, AllInv;
      Showing(s);
      ghost var states := Clones(s, |group.ranks|);
      ghost var after, failed;
      error, after, failed := group.Backwards(c, states);
      assert states[0] == s;
      if error.None? {
        BackTogether(states, after, c, s);
      } else {
        BackFailed(states, after, c, failed, s);
      }
    }

    ghost function Seen(): View
      requires group.ranks != []
      reads this, group.ranks, group.Queues()
    {
      View(Leader(), owners)
    }

    lemma {:induction false} LeaderInv()
      requires Valid()
      ensures Inv(Leader()) && forall id :: id !in owners ==> Table(Leader(), id) == []
    {
      hide Inv, BlockManager.State, MappedAt;
      ValidInv(group.ranks[0]);
    }

    // ----- asking every rank -----

    /** `can_allocate`: whether every rank could. */
    method CanAllocateAll(req: Req) returns (yes: bool)
      requires group.Sound()
      ensures yes <==> forall k :: 0 <= k < |group.ranks| ==> CanAllocate(group.ranks[k].State(), req)
    {
      hide BlockManager.State, BlockManager.Ready, CanAllocate;
      for k := 0 to |group.ranks|
        invariant forall j :: 0 <= j < k ==> CanAllocate(group.ranks[j].State(), req)
      {
        QueuesValid(group.ranks[k]);
        var can := group.ranks[k].CanAllocateRequest(req);
        if !can { return false; }
      }
      yes := true;
    }

    method CanAppendAll(req: Req, reservedBlocks: nat) returns (yes: bool)
      requires group.Sound()
      ensures yes <==> forall k :: 0 <= k < |group.ranks| ==> CanAppend(group.ranks[k].State(), req, reservedBlocks)
    {
      hide BlockManager.State, BlockManager.Ready, CanAppend;
      for k := 0 to |group.ranks|
        invariant forall j :: 0 <= j < k ==> CanAppend(group.ranks[j].State(), req, reservedBlocks)
      {
        QueuesValid(group.ranks[k]);
        var can := group.ranks[k].CanAppendSlot(req, reservedBlocks);
        if !can { return false; }
      }
      yes := true;
    }

    method CanSwapAll(id: RequestId, target: Device) returns (yes: bool)
      requires group.Sound()
      ensures yes <==> forall k :: 0 <= k < |group.ranks| ==> CanSwap(group.ranks[k].State(), id, target)
    {
      hide BlockManager.State, BlockManager.Ready, CanSwap;
      for k := 0 to |group.ranks|
        invariant forall j :: 0 <= j < k ==> CanSwap(group.ranks[j].State(), id, target)
      {
        var can := RankCanSwap(group.ranks[k], id, target);
        if !can { return false; }
      }
      yes := true;
    }

    // ----- the operations -----

    /** After a call that changed only the row of `id`: new mappings, and the checks, which pass. */
    method Remap(id: RequestId, ghost s: Manager, ghost t: Manager, ghost known: set<RequestId>) returns (error: Option<Error>)
      requires group.Sound() && Lockstep(t) && Mapped(mappings, |group.ranks|, s, known) && owners == known + {id}
      requires forall other :: other != id ==> Table(t, other) == Table(s, other)
      modifies this`mappings
      ensures error.None? && Valid() && Leader() == t
    {
      hide BlockManager.State, BlockManager.Valid, Mapped, Checks, Inv, Built, Rows, Column, OneDevice, Copies;
      Showing(t);
      ghost var states := Clones(t, |group.ranks|);
      EqualRows(states, t, id);
      Remapped(mappings, states, s, t, known, id);
      var rebuilt := RebuildMappings(id, states);
      ValidInv(group.ranks[0]);
      ChecksHold(states, t, mappings, owners, id);
      var checked := ValidateInvariants(id, states);
      error := if rebuilt.Some? then rebuilt else checked;
    }

    method Allocate(req: Req) returns (error: Option<Error>)
      requires Valid()
      modifies this, group.ranks, group.Queues()
      ensures Inv(old(Leader())) && Valid() && Outcome(Seen(), error) == AllocateAll(old(Seen()), req)
    {
      hide BlockManager.State, BlockManager.Valid, Mapped, Inv, CanAllocate, AllocateOp;
      ghost var s := Leader();
      LeaderInv();
      if req.id in owners { return Some(SimulationStateError); }
      var can := CanAllocateAll(req);
      if !can { return Some(OutOfBlocksError); }
      AllocateRow(s, req);
      error := Together(Admit(req), Repeated(Drop(req.id), |group.ranks|), s);
      if error.None? {
        ghost var known := owners;
        owners := owners + {req.id};
        error := Remap(req.id, s, AllocateOp(s, req).after, known);
      }
    }

    method Append(req: Req) returns (error: Option<Error>)
      requires Valid()
      modifies this, group.ranks, group.Queues()
      ensures Inv(old(Leader())) && Valid() && Outcome(Seen(), error) == AppendAll(old(Seen()), req)
    {
      hide BlockManager.State, BlockManager.Valid, Mapped, Inv, CanAppend, AppendOp;
      ghost var s := Leader();
      LeaderInv();
      if req.id !in owners { return Some(SimulationStateError); }
      var can := CanAppendAll(req, 0);
      if !can { return Some(OutOfBlocksError); }
      AppendRow(s, req);
      var undo := ShrinkBack(req.id);
      error := Together(Grow(req), undo, s);
      if error.None? { error := Remap(req.id, s, AppendOp(s, req).after, owners); }
    }

    /** For each rank, a call that takes away what it has gained since. */
    method ShrinkBack(id: RequestId) returns (undo: seq<Call>)
      ensures |undo| == |group.ranks|
      ensures forall k :: 0 <= k < |undo| ==> undo[k] == ShrinkTo(id, |Table(group.ranks[k].State(), id)|)
    {
      undo := [];
      for k := 0 to |group.ranks|
        invariant |undo| == k && forall j :: 0 <= j < k ==> undo[j] == ShrinkTo(id, |Table(group.ranks[j].State(), id)|)
      {
        var rank := group.ranks[k];
        undo := undo + [ShrinkTo(id, if id in rank.table then |rank.table[id]| else 0)];
      }
    }

    method Fork(parent: RequestId, child: RequestId) returns (error: Option<Error>)
      requires Valid()
      modifies this, group.ranks, group.Queues()
      ensures Inv(old(Leader())) && Valid() && Outcome(Seen(), error) == ForkAll(old(Seen()), parent, child)
    {
      hide BlockManager.State, BlockManager.Valid, Mapped, Inv, ForkOp;
      ghost var s := Leader();
      LeaderInv();
      if parent !in owners || child in owners { return Some(SimulationStateError); }
      ForkRow(s, parent, child);
      error := Together(Share(parent, child), Repeated(Drop(child), |group.ranks|), s);
      if error.None? {
        ghost var known := owners;
        owners := owners + {child};
        error := Remap(child, s, ForkOp(s, parent, child).after, known);
      }
    }

    method Swap(id: RequestId, toGpu: bool) returns (error: Option<Error>)
      requires Valid()
      modifies this, group.ranks, group.Queues()
      ensures Inv(old(Leader())) && Valid()
      ensures Outcome(Seen(), error) ==
              if toGpu then SwapAll(old(Seen()), id, CPU, GPU) else SwapAll(old(Seen()), id, GPU, CPU)
    {
      hide BlockManager.State, BlockManager.Valid, Mapped, Inv, CanSwap, SwapOp;
      ghost var s := Leader();
      LeaderInv();
      var source, target := if toGpu then CPU else GPU, if toGpu then GPU else CPU;
      if id !in owners { return Some(SimulationStateError); }
      var can := CanSwapAll(id, target);
      if !can { return Some(OutOfBlocksError); }
      SwapRow(s, id, source, target);
      error := Together(Move(id, source, target), Repeated(Move(id, target, source), |group.ranks|), s);
      var checked := Remap(id, s, if error.None? then SwapOp(s, id, source, target).after else s, owners);
    }

    method CommitInput(id: RequestId) returns (error: Option<Error>)
      requires Valid()
      modifies this, group.ranks, group.Queues()
      ensures Inv(old(Leader())) && Valid() && Outcome(Seen(), error) == CommitAll(old(Seen()), id)
    {
      hide BlockManager.State, BlockManager.Valid, Mapped, Inv, CommitInputOp;
      ghost var s := Leader();
      LeaderInv();
      if id !in owners { return Some(SimulationStateError); }
      CommitRow(s, id);
      error := Together(Commit(id), Repeated(Commit(id), |group.ranks|), s);
      StillMapped(mappings, |group.ranks|, s, CommitInputOp(s, id), owners);
    }

    method CommitFinishedCache(req: Req) returns (error: Option<Error>)
      requires Valid()
      modifies this, group.ranks, group.Queues()
      ensures Inv(old(Leader())) && Valid() && Outcome(Seen(), error) == CommitFinishedAll(old(Seen()), req)
    {
      hide BlockManager.State, BlockManager.Valid, Mapped, Inv, Effect;
      ghost var s := Leader();
      LeaderInv();
      if req.id !in owners { return Some(SimulationStateError); }
      CommitFinishedRow(s, req);
      error := Together(CommitFinished(req), Repeated(CommitFinished(req), |group.ranks|), s);
      StillMapped(mappings, |group.ranks|, s, Effect(s, CommitFinished(req)).after, owners);
    }

    method Release(id: RequestId) returns (error: Option<Error>)
      requires Valid()
      modifies this, group.ranks, group.Queues()
      ensures Inv(old(Leader())) && Valid() && Outcome(Seen(), error) == ReleaseAll(old(Seen()), id)
    {
      hide BlockManager.State, BlockManager.Valid, Mapped, Inv, ReleaseOp, Checks, Forgotten, Clones, Effect;
      ghost var s := Leader();
      LeaderInv();
      if id !in owners { return Some(SimulationStateError); }
      Showing(s);
      ChecksHold(Clones(s, |group.ranks|), s, mappings, owners, id);
      error := ValidateInvariants(id, Clones(s, |group.ranks|));
      if error.None? { error := DropAll(id, s); }
    }

    /** Every rank releases its blocks, and the replica forgets the request. */
    method DropAll(id: RequestId, ghost s: Manager) returns (error: Option<Error>)
      requires Valid() && s == Leader()
      modifies this, group.ranks, group.Queues()
      ensures Inv(s) && Valid() && error.None? && Seen() == View(ReleaseOp(s, id), old(owners) - {id})
    {
      hide BlockManager.State, BlockManager.Valid, Mapped, Inv, ReleaseOp, Forgotten, Effect;
      LeaderInv();
      ReleaseRow(s, id);
      error := TogetherBack(Drop(id), s);
      Unmapped(mappings, |group.ranks|, s, ReleaseOp(s, id), owners, id);
      owners, mappings := owners - {id}, Forgotten(mappings, id);
    }

    /** `free`: publish, then release. */
    method Free(req: Req) returns (error: Option<Error>)
      requires Valid()
      modifies this, group.ranks, group.Queues()
      ensures Inv(old(Leader())) && Valid()
      ensures Outcome(Seen(), error) == FreeAll(old(Seen()), req)
    {
      hide BlockManager.State, BlockManager.Valid, Mapped, Inv, ReleaseOp, Effect, Valid;
      error := CommitFinishedCache(req);
      if error.None? { error := Release(req.id); }
    }

    method ReleaseReserved(count: Option<int>) returns (error: Option<Error>)
      requires Valid()
      modifies this, group.ranks, group.Queues()
      ensures Inv(old(Leader())) && Valid() && Outcome(Seen(), error) == UnreserveAll(old(Seen()), count)
    {
      hide BlockManager.State, BlockManager.Valid, Mapped, Inv, ReleaseReservedOp;
      ghost var s := Leader();
      LeaderInv();
      UnreserveRow(s, count);
      error := TogetherBack(Unhold(count), s);
      StillMapped(mappings, |group.ranks|, s, ReleaseReservedOp(s, count).after, owners);
    }

    /**
      `reserve_gpu_blocks`.  When blocks run out, the first rank has already handed out and taken back what
      it had, the others have done nothing: the ranks stay equal exactly if that left no trace.
     */
    method Reserve(n: int) returns (error: Option<Error>)
      requires Valid()
      modifies this, group.ranks, group.Queues()
      ensures Inv(old(Leader())) && group.Sound() && owners == old(owners) && mappings == old(mappings)
      ensures Outcome(Seen(), error) == ReserveAll(old(Seen()), n)
      ensures forall k :: 1 <= k < |group.ranks| ==> group.ranks[k].State() == if error.None? then Leader() else old(Leader())
      ensures Valid() <==> Steady(old(Leader()), n, |group.ranks|)
    {
      hide BlockManager.State, BlockManager.Valid, Mapped, Inv, ReserveOp, Settled, NumFree;
      ghost var s := Leader();
      LeaderInv();
      ReserveRow(s, n);
      error := Together(Hold(n), Repeated(Unhold(Some(n)), |group.ranks|), s);
      ReserveFails(s, n);
      StillMapped(mappings, |group.ranks|, s, ReserveOp(s, n).after, owners);
      if error.Some? { FailureUndone(s, n); }
      if |group.ranks| > 1 { assert group.ranks[1].State() == if error.None? then Leader() else s; }
      assert Lockstep(Leader()) <==> error.None? || |group.ranks| == 1 || ReserveOp(s, n).after == s;
    }

    // ----- whole runs -----

    method Execute(c: Command) returns (error: Option<Error>)
      requires Valid() && (c.SetAside? ==> Steady(Leader(), c.amount, |group.ranks|))
      modifies this, group.ranks, group.Queues()
      ensures Inv(old(Leader())) && Valid() && Outcome(Seen(), error) == Does(old(Seen()), c)
    {
      hide BlockManager.State, Valid, Inv, Steady, AllocateAll, AppendAll, ForkAll, SwapAll, CommitAll, CommitFinishedAll, ReleaseAll, FreeAll,
        UnreserveAll, ReserveAll;
      match c {
        case Enter(req) => error := Allocate(req);
        case Extend(req) => error := Append(req);
        case Branch(parent, child) => error := Fork(parent, child);
        case Shift(id, toGpu) => error := Swap(id, toGpu);
        case Publish(id) => error := CommitInput(id);
        case PublishAll(req) => error := CommitFinishedCache(req);
        case Leave(id) => error := Release(id);
        case Finish(req) => error := Free(req);
        case SetAside(n) => error := Reserve(n);
        case PutBack(count) => error := ReleaseReserved(count);
      }
    }

    /**
      Any sequence of calls, failing ones included, leaves all ranks in the state one single manager would
      be in, as long as no reservation that runs out of blocks meets an unsettled pool.
     */
    method ExecuteAll(commands: seq<Command>) returns (errors: seq<Option<Error>>)
      requires Valid() && (Inv(Leader()) ==> SteadyRun(Seen(), commands, |group.ranks|))
      modifies this, group.ranks, group.Queues()
      ensures Inv(old(Leader())) && Valid() && Seen() == After(old(Seen()), commands)
      ensures |errors| == |commands| && Lockstep(After(old(Seen()), commands).state)
    {
      hide BlockManager.State, BlockManager.Valid, Mapped, Inv, Does, Steady;
      errors := [];
      LeaderInv();
      ghost var start := Seen();
      for i := 0 to |commands|
        invariant Valid() && Inv(Leader()) && |errors| == i
        invariant SteadyRun(Seen(), commands[i..], |group.ranks|) && After(Seen(), commands[i..]) == After(start, commands)
      {
        assert commands[i..][0] == commands[i] && commands[i..][1..] == commands[i + 1..];
        var error := Execute(commands[i]);
        LeaderInv();
        errors := errors + [error];
      }
    }
  }

  lemma {:induction false} QueuesValid(rank: BlockManager)
    requires rank.Valid()
    ensures rank.gpuQueue.Valid() && rank.cpuQueue.Valid()
  {
  }

  lemma {:induction false} BackTogether(before: seq<Manager>, after: seq<Manager>, c: Call, s: Manager)
    requires AllInv(before) && before != [] && Same(before, s) && CalledFrom(before, after, c, 0)
    ensures Inv(s) && Effect(s, c).error.None? && Same(after, Effect(s, c).after)
  {
    hide Effect, Inv;
    assert before[0] == s;
  }

  lemma {:induction false} BackFailed(before: seq<Manager>, after: seq<Manager>, c: Call, n: nat, s: Manager)
    requires AllInv(before) && n < |before| == |after| && Same(before, s)
    requires CalledFrom(before, after[n := before[n]], c, n + 1) && Effect(before[n], c).error.Some? && after[n] == Effect(before[n], c).after
    ensures Inv(s) && Effect(s, c).error.Some? && (Effect(s, c).after == s ==> Same(after, s))
  {
    hide Effect, Inv;
    assert before[n] == s && before[|before| - 1] == s;
    forall k | 0 <= k < |after| ensures k == n || after[k] == s {
      assert after[n := before[n]][k] == if k == n then before[n] else after[k];
    }
  }

  method RankCanSwap(rank: BlockManager, id: RequestId, target: Device) returns (yes: bool)
    requires rank.Valid()
    ensures yes <==> CanSwap(rank.State(), id, target)
  {
    hide BlockManager.Ready, NumFree;
    QueuesValid(rank);
    var refs := if id in rank.table then rank.table[id] else [];
    var free := rank.FreeBlocks(target);
    yes := refs != [] && free >= |refs|;
  }

  // ----- what a call changes in the table -----

  lemma {:induction false} AllocateRow(m: Manager, req: Req)
    requires Inv(m) && CanAllocate(m, req) && Table(m, req.id) == []
    ensures Effect(m, Admit(req)) == AllocateOp(m, req) && AllocateOp(m, req).error.None?
    ensures forall other :: other != req.id ==> Table(AllocateOp(m, req).after, other) == Table(m, other)
  {
    hide Inv, Gather, MarkMany, PlanReuse, RequestKeys, CanAllocate, IsHit, GiveBack;
    AdmissionSound(m, req);
  }

  lemma {:induction false} AppendRow(m: Manager, req: Req)
    requires Inv(m) && CanAppend(m, req, 0)
    ensures Effect(m, Grow(req)) == AppendOp(m, req) && AppendOp(m, req).error.None?
    ensures forall other :: other != req.id ==> Table(AppendOp(m, req).after, other) == Table(m, other)
  {
    hide Consistent, Allocate, PoolOk;
  }

  lemma {:induction false} ForkRow(m: Manager, parent: RequestId, child: RequestId)
    requires Inv(m)
    ensures Effect(m, Share(parent, child)) == ForkOp(m, parent, child)
    ensures ForkOp(m, parent, child).error.Some? ==> ForkOp(m, parent, child).after == m
    ensures forall other :: other != child ==> Table(ForkOp(m, parent, child).after, other) == Table(m, other)
  {
    hide Consistent, AcquireMany;
  }

  lemma {:induction false} SwapRow(m: Manager, id: RequestId, source: Device, target: Device)
    requires Inv(m)
    ensures Effect(m, Move(id, source, target)) == SwapOp(m, id, source, target)
    ensures SwapOp(m, id, source, target).error.Some? ==> SwapOp(m, id, source, target).after == m
    ensures forall other :: other != id ==> Table(SwapOp(m, id, source, target).after, other) == Table(m, other)
  {
    hide Consistent, CopyMany, ReleaseMany, NumFree, AllOn;
  }

  lemma {:induction false} CommitRow(m: Manager, id: RequestId)
    requires Inv(m)
    ensures Effect(m, Commit(id)) == Step(CommitInputOp(m, id), None)
    ensures forall other :: Table(CommitInputOp(m, id), other) == Table(m, other)
  {
    hide Inv, CommitInputOp;
    CommitInputKeeps(m, id);
  }

  lemma {:induction false} CommitFinishedRow(m: Manager, req: Req)
    requires Inv(m)
    ensures Effect(m, CommitFinished(req)).error.None?
    ensures forall other :: Table(Effect(m, CommitFinished(req)).after, other) == Table(m, other)
  {
    hide Inv, CommitInputOp, RegisterOutputOp;
    CommitInputKeeps(m, req.id);
    RegisterOutputKeeps(CommitInputOp(m, req.id), req);
  }

  lemma {:induction false} ReleaseRow(m: Manager, id: RequestId)
    requires Inv(m)
    ensures Effect(m, Drop(id)) == Step(ReleaseOp(m, id), None)
    ensures Table(ReleaseOp(m, id), id) == [] && forall other :: other != id ==> Table(ReleaseOp(m, id), other) == Table(m, other)
  {
    hide Consistent, ReleaseMany;
  }

  lemma {:induction false} UnreserveRow(m: Manager, count: Option<int>)
    requires Inv(m)
    ensures Effect(m, Unhold(count)) == ReleaseReservedOp(m, count)
    ensures ReleaseReservedOp(m, count).error.Some? ==> ReleaseReservedOp(m, count).after == m
    ensures forall id :: Table(ReleaseReservedOp(m, count).after, id) == Table(m, id)
  {
    hide Consistent, ReleaseMany;
  }

  lemma {:induction false} ReserveRow(m: Manager, n: int)
    requires Inv(m)
    ensures Effect(m, Hold(n)) == ReserveOp(m, n)
    ensures forall id :: Table(ReserveOp(m, n).after, id) == Table(m, id)
  {
    hide Consistent, TakeMany, ReleaseMany;
  }
}
