/** `relative_timetable`: when each message of a phase occupies which budgets, round after round. */
module PhaseSchedule {
  import opened Common
  import opened TrafficTypes
  import opened ListSchedule

  /** Node aggregate budgets: bandwidths in bytes per second, latencies in microseconds. */
  datatype Domains = Domains(localBandwidth: real, txBandwidth: real, rxBandwidth: real, localLatency: real, interLatency: real)

  /** What the configuration's validators demand. */
  predicate ValidDomains(config: Domains) {
    && config.localBandwidth > 0.0 && config.txBandwidth > 0.0 && config.rxBandwidth > 0.0
    && config.localLatency >= 0.0 && config.interLatency >= 0.0
  }

  function TransferResources(sourceNode: Node, targetNode: Node): (keys: seq<Resource>) {
    if sourceNode == targetNode then [LocalFabric(sourceNode)] else [InterTx(sourceNode), InterRx(targetNode)]
  }

  function Slower(a: real, b: real): real { if a <= b then a else b }

  function TransmissionService(config: Domains, m: Transmission): (seconds: real)
    requires ValidDomains(config)
  {
    if m.wireBytes == 0.0 then 0.0
    else if m.sourceNode == m.targetNode then config.localLatency * 0.000001 + m.wireBytes / config.localBandwidth
    else config.interLatency * 0.000001 + m.wireBytes / Slower(config.txBandwidth, config.rxBandwidth)
  }

  lemma {:induction false} QuotientNonNegative(a: real, b: real)
    requires a >= 0.0 && b > 0.0
    ensures a / b >= 0.0
  {
  }

  lemma {:induction false} ServiceNonNegative(config: Domains, m: Transmission)
    requires ValidDomains(config) && m.wireBytes >= 0.0
    ensures TransmissionService(config, m) >= 0.0
  {
    QuotientNonNegative(m.wireBytes, config.localBandwidth);
    QuotientNonNegative(m.wireBytes, Slower(config.txBandwidth, config.rxBandwidth));
  }

  predicate Billable(messages: Round) {
    forall i :: 0 <= i < |messages| ==> messages[i].wireBytes >= 0.0
  }

  /** No message has negative volume. */
  predicate BillableRounds(rounds: seq<Round>) {
    forall r :: 0 <= r < |rounds| ==> Billable(rounds[r])
  }

  // ----- the timetable -----

  /** A message together with its round. */
  type Row = Placed<(nat, Transmission)>

  function PlaceMessage(table: seq<Row>, round: nat, m: Transmission, barrier: real, config: Domains): Row
    requires ValidDomains(config)
  {
    var keys := TransferResources(m.sourceNode, m.targetNode);
    var start := Earliest(table, |table|, keys, |keys|, barrier);
    Placed((round, m), keys, barrier, start, start + TransmissionService(config, m))
  }

  /** The first `n` messages of a round, in order, each as soon as possible after `barrier`; empty messages are skipped. */
  function RoundRows(table: seq<Row>, round: nat, messages: Round, n: nat, barrier: real, config: Domains): seq<Row>
    requires ValidDomains(config) && n <= |messages|
  {
    if n == 0 then table
    else
      var earlier, m := RoundRows(table, round, messages, n - 1, barrier, config), messages[n - 1];
      if m.wireBytes == 0.0 then earlier else earlier + [PlaceMessage(earlier, round, m, barrier, config)]
  }

  /** The first `n` rounds; a round begins when everything before it has ended. */
  function Timetable(rounds: seq<Round>, n: nat, config: Domains): seq<Row>
    requires ValidDomains(config) && n <= |rounds|
  {
    if n == 0 then []
    else
      var earlier := Timetable(rounds, n - 1, config);
      RoundRows(earlier, n - 1, rounds[n - 1], |rounds[n - 1]|, Makespan(earlier, |earlier|), config)
  }

  function PhaseService(phase: TrafficPhase, config: Domains): real
    requires ValidDomains(config)
  {
    var table := Timetable(phase.rounds, |phase.rounds|, config);
    Makespan(table, |table|)
  }

  /** The inner loop: places the messages of one round and returns when the round is over. */
  method PlaceRound(before: seq<Row>, busy: map<Resource, real>, r: nat, messages: Round, barrier: real, config: Domains)
    returns (ok: bool, table: seq<Row>, available: map<Resource, real>, latest: real)
    requires ValidDomains(config) && Tracks(busy, before) && barrier == Makespan(before, |before|)
    ensures ok <==> Billable(messages)
    ensures ok ==> table == RoundRows(before, r, messages, |messages|, barrier, config)
    ensures ok ==> latest == Makespan(table, |table|) && Tracks(available, table)
  {
    table, available, latest := before, busy, barrier;
    for i := 0 to |messages|
      invariant Billable(messages[..i])
      invariant table == RoundRows(before, r, messages, i, barrier, config)
      invariant latest == Makespan(table, |table|)
      invariant Tracks(available, table)
    {
      var m := messages[i];
      if m.wireBytes < 0.0 {
        return false, table, available, latest;
      }
      if m.wireBytes != 0.0 {
        var keys := TransferResources(m.sourceNode, m.targetNode);
        var start := EarliestStart(available, table, keys, barrier);
        var row := Placed((r, m), keys, barrier, start, start + TransmissionService(config, m));
        available := Occupy(available, table, row);
        ghost var earlier := table;
        table := table + [row];
        MakespanPrefix(earlier, table, |earlier|);
        latest := Later(latest, row.end);
      }
    }
    ok := true;
  }

  /** The loop over rounds; a negative volume is an error. */
  method RelativeTimetable(phase: TrafficPhase, config: Domains) returns (result: Result<seq<Row>>)
    requires ValidDomains(config)
    ensures result.Ok? <==> BillableRounds(phase.rounds)
    ensures result.Ok? ==> result.value == Timetable(phase.rounds, |phase.rounds|, config)
    ensures result.Err? ==> result.error == ConfigurationError
  {
    var available: map<Resource, real>, barrier: real, table: seq<Row> := map[], 0.0, [];
    for r := 0 to |phase.rounds|
      invariant forall q :: 0 <= q < r ==> Billable(phase.rounds[q])
      invariant table == Timetable(phase.rounds, r, config)
      invariant barrier == Makespan(table, |table|)
      invariant Tracks(available, table)
    {
      var ok;
      ok, table, available, barrier := PlaceRound(table, available, r, phase.rounds[r], barrier, config);
      if !ok {
        return Err(ConfigurationError);
      }
    }
    result := Ok(table);
  }

  /** The dictionary holds, for every key, when its last user ends; an absent key is free. */
  ghost predicate Tracks<T>(available: map<Resource, real>, done: seq<Placed<T>>) {
    forall key :: Busy(available, key) == Available(done, |done|, key)
  }

  function Busy(available: map<Resource, real>, key: Resource): real {
    if key in available then available[key] else 0.0
  }

  method EarliestStart<T>(available: map<Resource, real>, ghost done: seq<Placed<T>>, keys: seq<Resource>, ready: real)
    returns (start: real)
    requires Tracks(available, done)
    ensures start == Earliest(done, |done|, keys, |keys|, ready)
  {
    start := ready;
    for k := 0 to |keys|
      invariant start == Earliest(done, |done|, keys, k, ready)
    {
      start := Later(start, Busy(available, keys[k]));
    }
  }

  method Occupy<T>(available: map<Resource, real>, ghost done: seq<Placed<T>>, row: Placed<T>) returns (after: map<Resource, real>)
    requires Tracks(available, done)
    ensures Tracks(after, done + [row])
  {
    after := available;
    for k := 0 to |row.resources|
      invariant forall key :: Busy(after, key) == if key in row.resources[..k] then row.end else Busy(available, key)
    {
      after := after[row.resources[k] := row.end];
      assert row.resources[..k + 1] == row.resources[..k] + [row.resources[k]];
    }
    assert row.resources[..|row.resources|] == row.resources;
    forall key ensures Busy(after, key) == Available(done + [row], |done| + 1, key) {
      AvailablePrefix(done, done + [row], |done|, key);
    }
  }

  // ----- what the timetable guarantees -----

  lemma {:induction false} RoundRowsKeep(table: seq<Row>, round: nat, messages: Round, n: nat, barrier: real, config: Domains)
    requires ValidDomains(config) && n <= |messages| && Billable(messages)
    requires Fifo(table) && barrier == Makespan(table, |table|)
    ensures var rows := RoundRows(table, round, messages, n, barrier, config);
      && Fifo(rows) && |table| <= |rows| && rows[..|table|] == table && barrier <= Makespan(rows, |rows|)
      && forall j :: |table| <= j < |rows| ==> rows[j].ready == barrier && rows[j].item.0 == round
    decreases n
  {
    hide Earliest, TransmissionService, TransferResources, ValidDomains;
    AvailableInMakespan(table, |table|, LocalFabric(0));
    if n > 0 {
      RoundRowsKeep(table, round, messages, n - 1, barrier, config);
      var earlier := RoundRows(table, round, messages, n - 1, barrier, config);
      var rows := RoundRows(table, round, messages, n, barrier, config);
      if messages[n - 1].wireBytes != 0.0 {
        ServiceNonNegative(config, messages[n - 1]);
        FifoAppend(earlier, rows, rows[|earlier|]);
        MakespanPrefix(earlier, rows, |earlier|);
      }
    }
  }

  /** Every row of a later round starts after all rows of earlier rounds have ended. */
  ghost predicate InRounds(table: seq<Row>, n: nat) {
    && (forall j :: 0 <= j < |table| ==> table[j].item.0 < n)
    && (forall i, j :: 0 <= i < |table| && 0 <= j < |table| && table[i].item.0 < table[j].item.0 ==> table[i].end <= table[j].start)
  }

  lemma {:induction false} LastRoundStartsLate(table: seq<Row>, rows: seq<Row>, n: nat, i: nat, j: nat)
    requires Fifo(rows) && |table| <= |rows| && rows[..|table|] == table && i < |table| <= j < |rows|
    requires rows[j].ready == Makespan(table, |table|)
    ensures rows[i].end <= rows[j].start
  {
    MakespanCovers(table, |table|, i);
    StartsLate(rows, j);
  }

  /** The timetable is first-come first-served and its rounds do not overlap. */
  lemma {:induction false} TimetableKeeps(rounds: seq<Round>, n: nat, config: Domains)
    requires ValidDomains(config) && n <= |rounds| && BillableRounds(rounds)
    ensures Fifo(Timetable(rounds, n, config)) && InRounds(Timetable(rounds, n, config), n)
    decreases n
  {
    if n > 0 {
      TimetableKeeps(rounds, n - 1, config);
      var table := Timetable(rounds, n - 1, config);
      var rows := Timetable(rounds, n, config);
      RoundRowsKeep(table, n - 1, rounds[n - 1], |rounds[n - 1]|, Makespan(table, |table|), config);
      forall i, j | 0 <= i < |rows| && 0 <= j < |rows| && rows[i].item.0 < rows[j].item.0 ensures rows[i].end <= rows[j].start {
        assert i < |table| && rows[i] == table[i];
        if j >= |table| {
          LastRoundStartsLate(table, rows, n, i, j);
        } else {
          assert rows[j] == table[j];
        }
      }
    }
  }

  /** The messages with something to send, in order. */
  function Sent(messages: Round, n: nat): Round
    requires n <= |messages|
  {
    if n == 0 then []
    else if messages[n - 1].wireBytes == 0.0 then Sent(messages, n - 1) else Sent(messages, n - 1) + [messages[n - 1]]
  }

  function AllSent(rounds: seq<Round>, n: nat): Round
    requires n <= |rounds|
  {
    if n == 0 then [] else AllSent(rounds, n - 1) + Sent(rounds[n - 1], |rounds[n - 1]|)
  }

  /** The messages of the first `n` rows. */
  function Messages(table: seq<Row>, n: nat): Round
    requires n <= |table|
  {
    if n == 0 then [] else Messages(table, n - 1) + [table[n - 1].item.1]
  }

  lemma {:induction false} MessagesPrefix(table: seq<Row>, all: seq<Row>, n: nat)
    requires n <= |table| <= |all| && all[..|table|] == table
    ensures Messages(all, n) == Messages(table, n)
    decreases n
  {
    if n > 0 {
      assert all[n - 1] == table[n - 1];
      MessagesPrefix(table, all, n - 1);
    }
  }

  lemma {:induction false} RoundRowsSend(table: seq<Row>, rows: seq<Row>, round: nat, messages: Round, n: nat, barrier: real, config: Domains)
    requires ValidDomains(config) && n <= |messages| && rows == RoundRows(table, round, messages, n, barrier, config)
    ensures Messages(rows, |rows|) == Messages(table, |table|) + Sent(messages, n)
    decreases n
  {
    if n > 0 {
      var earlier := RoundRows(table, round, messages, n - 1, barrier, config);
      RoundRowsSend(table, earlier, round, messages, n - 1, barrier, config);
      MessagesPrefix(earlier, rows, |earlier|);
    }
  }

  /** Each non-empty message is sent exactly once, in order. */
  lemma {:induction false} TimetableSends(rounds: seq<Round>, n: nat, config: Domains, table: seq<Row>)
    requires ValidDomains(config) && n <= |rounds| && table == Timetable(rounds, n, config)
    ensures Messages(table, |table|) == AllSent(rounds, n)
    decreases n
  {
    if n > 0 {
      var earlier := Timetable(rounds, n - 1, config);
      TimetableSends(rounds, n - 1, config, earlier);
      RoundRowsSend(earlier, table, n - 1, rounds[n - 1], |rounds[n - 1]|, Makespan(earlier, |earlier|), config);
    }
  }

  /** A phase takes at least as long as each budget is busy and at most as long as sending one message at a time. */
  lemma {:induction false} PhaseServiceBounds(phase: TrafficPhase, config: Domains, key: Resource)
    requires ValidDomains(config) && BillableRounds(phase.rounds)
    ensures var table := Timetable(phase.rounds, |phase.rounds|, config);
      && 0.0 <= PhaseService(phase, config)
      && Load(table, |table|, key) <= PhaseService(phase, config) <= TotalService(table, |table|)
  {
    TimetableKeeps(phase.rounds, |phase.rounds|, config);
    var table := Timetable(phase.rounds, |phase.rounds|, config);
    AvailableInMakespan(table, |table|, key);
    LoadBound(table, |table|, key);
    TotalBound(table, |table|);
  }

  // ----- budgets a phase touches -----

  function AddKeys(seen: seq<Resource>, keys: seq<Resource>, n: nat): seq<Resource>
    requires n <= |keys|
  {
    if n == 0 then seen
    else
      var earlier := AddKeys(seen, keys, n - 1);
      if keys[n - 1] in earlier then earlier else earlier + [keys[n - 1]]
  }

  function RoundKeys(seen: seq<Resource>, messages: Round, n: nat): seq<Resource>
    requires n <= |messages|
  {
    if n == 0 then seen
    else
      var earlier, m := RoundKeys(seen, messages, n - 1), messages[n - 1];
      var keys := TransferResources(m.sourceNode, m.targetNode);
      if m.wireBytes == 0.0 then earlier else AddKeys(earlier, keys, |keys|)
  }

  function KeysUpTo(rounds: seq<Round>, n: nat): seq<Resource>
    requires n <= |rounds|
  {
    if n == 0 then [] else RoundKeys(KeysUpTo(rounds, n - 1), rounds[n - 1], |rounds[n - 1]|)
  }

  /** Every budget that some non-empty message of the phase uses, once. */
  function ResourceIds(phase: TrafficPhase): seq<Resource> {
    KeysUpTo(phase.rounds, |phase.rounds|)
  }
}
