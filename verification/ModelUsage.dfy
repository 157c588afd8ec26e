/** The model-usage table: upsert by id, summaries by group, and the queue of writes that feeds it. */
module ModelUsage {
  import opened Wrappers
  import opened Lists
  import opened Sorting

  // ---------------------------------------------------------------- rows

  datatype UsageStatus = Succeeded | Failed | Cancelled

  datatype UsageInput = UsageInput(
    id: Option<string>, idempotencyKey: Option<string>, orgId: string, runId: string, runEventId: Option<string>,
    modelPolicyId: Option<string>, provider: string, model: string, inputTokens: Option<int>, outputTokens: Option<int>,
    totalTokens: Option<int>, estimatedCostCents: Option<int>, actualCostCents: Option<int>, status: UsageStatus)

  datatype UsageRow = UsageRow(
    id: string, orgId: string, runId: string, runEventId: Option<string>, modelPolicyId: Option<string>,
    provider: string, model: string, inputTokens: int, outputTokens: int, totalTokens: int, estimatedCostCents: int,
    actualCostCents: int, status: UsageStatus)

  function OrZero(value: Option<int>): int {
    if value.Some? then value.value else 0
  }

  /** `idOf` is the hash of organisation and idempotency key. */
  function ModelUsageInputToRow(input: UsageInput, idOf: (string, string) -> string): Result<UsageRow> {
    var id :-
      if input.id.Some? then Ok(input.id.value)
      else if input.idempotencyKey.None? || input.idempotencyKey.value == "" then
        Err("Model usage writes require an id or idempotencyKey.")
      else Ok(idOf(input.orgId, input.idempotencyKey.value));
    var inputTokens, outputTokens := OrZero(input.inputTokens), OrZero(input.outputTokens);
    Ok(UsageRow(id, input.orgId, input.runId, input.runEventId, input.modelPolicyId, input.provider, input.model,
                inputTokens, outputTokens,
                if input.totalTokens.Some? then input.totalTokens.value else inputTokens + outputTokens,
                OrZero(input.estimatedCostCents), OrZero(input.actualCostCents), input.status))
  }

  type Table = map<string, UsageRow>

  function Upserted(table: Table, row: UsageRow): Table {
    table[row.id := row]
  }

  class ModelUsageRepository {
    var table: Table

    constructor ()
      ensures table == map[]
    {
      table := map[];
    }

    method RecordUsage(input: UsageInput, idOf: (string, string) -> string) returns (result: Result<UsageRow>)
      modifies this
      ensures result == ModelUsageInputToRow(input, idOf)
      ensures table == if result.Ok? then Upserted(old(table), result.value) else old(table)
    {
      var row :- ModelUsageInputToRow(input, idOf);
      table := table[row.id := row];
      return Ok(row);
    }
  }

  /** A table after more writes, in order. */
  function WriteAll(table: Table, writes: seq<UsageRow>): Table {
    if writes == [] then table else Upserted(WriteAll(table, writes[..|writes| - 1]), writes[|writes| - 1])
  }

  function Written(writes: seq<UsageRow>): Table {
    WriteAll(map[], writes)
  }

  function LastWrite(writes: seq<UsageRow>, id: string): Option<UsageRow> {
    if writes == [] then None
    else if writes[|writes| - 1].id == id then Some(writes[|writes| - 1])
    else LastWrite(writes[..|writes| - 1], id)
  }

  /** One row for every id that was written, holding its last write. */
  lemma {:induction false} HoldsLastWrites(writes: seq<UsageRow>, id: string)
    ensures id in Written(writes) <==> exists w :: w in writes && w.id == id
    ensures LastWrite(writes, id) == if id in Written(writes) then Some(Written(writes)[id]) else None
  {
    if writes != [] {
      var front, last := writes[..|writes| - 1], writes[|writes| - 1];
      HoldsLastWrites(front, id);
      assert writes == front + [last];
    }
  }

  // ---------------------------------------------------------------- summaries

  datatype GroupKey = GroupKey(orgId: string, runId: string, provider: string, model: string, status: UsageStatus)

  datatype Amounts = Amounts(calls: int, inputTokens: int, outputTokens: int, totalTokens: int,
                             estimatedCostCents: int, actualCostCents: int)

  datatype Summary = Summary(key: GroupKey, amounts: Amounts)

  /** Absent and empty criteria match everything. */
  datatype UsageFilter = UsageFilter(orgId: string, runId: string, provider: string, model: string,
                                     status: Option<UsageStatus>)

  const NOTHING := Amounts(0, 0, 0, 0, 0, 0)

  function KeyOf(row: UsageRow): GroupKey {
    GroupKey(row.orgId, row.runId, row.provider, row.model, row.status)
  }

  function AmountsOf(row: UsageRow): Amounts {
    Amounts(1, row.inputTokens, row.outputTokens, row.totalTokens, row.estimatedCostCents, row.actualCostCents)
  }

  function Plus(a: Amounts, b: Amounts): Amounts {
    Amounts(a.calls + b.calls, a.inputTokens + b.inputTokens, a.outputTokens + b.outputTokens,
            a.totalTokens + b.totalTokens, a.estimatedCostCents + b.estimatedCostCents,
            a.actualCostCents + b.actualCostCents)
  }

  predicate MatchesKey(key: GroupKey, filter: UsageFilter) {
    && key.orgId == filter.orgId && (filter.runId == "" || key.runId == filter.runId)
    && (filter.provider == "" || key.provider == filter.provider)
    && (filter.model == "" || key.model == filter.model)
    && (filter.status.None? || key.status == filter.status.value)
  }

  /** What the rows of one group add up to. */
  function Totals(rows: seq<UsageRow>, key: GroupKey): Amounts {
    if rows == [] then NOTHING
    else Plus(Part(rows[0], key), Totals(rows[1..], key))
  }

  lemma PlusLaws(a: Amounts, b: Amounts, c: Amounts)
    ensures Plus(Plus(a, b), c) == Plus(a, Plus(b, c)) && Plus(a, b) == Plus(b, a)
    ensures Plus(a, NOTHING) == a && Plus(NOTHING, a) == a
  {
  }

  lemma {:induction false} TotalsAdd(a: seq<UsageRow>, b: seq<UsageRow>, key: GroupKey)
    ensures Totals(a + b, key) == Plus(Totals(a, key), Totals(b, key))
  {
    hide Plus, AmountsOf, KeyOf;
    if a == [] {
      assert a + b == b;
      PlusLaws(Totals(b, key), NOTHING, NOTHING);
    } else {
      TotalsAdd(a[1..], b, key);
      assert (a + b)[1..] == a[1..] + b && (a + b)[0] == a[0];
      PlusLaws(Part(a[0], key), Totals(a[1..], key), Totals(b, key));
    }
  }

  function Part(row: UsageRow, key: GroupKey): Amounts {
    if KeyOf(row) == key then AmountsOf(row) else NOTHING
  }

  lemma TotalsOfOne(row: UsageRow, key: GroupKey)
    ensures Totals([row], key) == Part(row, key)
  {
    assert [row][1..] == [];
  }

  /** Totals do not depend on the order of the rows. */
  lemma {:induction false} TotalsPermute(s: seq<UsageRow>, t: seq<UsageRow>, key: GroupKey)
    requires multiset(s) == multiset(t)
    ensures Totals(s, key) == Totals(t, key)
  {
    if s == [] {
      assert |multiset(t)| == 0;
    } else {
      assert s[0] in multiset(t);
      var i :| 0 <= i < |t| && t[i] == s[0];
      RemovedOne(t, i, key);
      RestCount(s);
      TotalsPermute(s[1..], t[..i] + t[i + 1..], key);
    }
  }

  lemma RemovedOne(t: seq<UsageRow>, i: nat, key: GroupKey)
    requires i < |t|
    ensures multiset(t[..i] + t[i + 1..]) == multiset(t) - multiset{t[i]}
    ensures Totals(t, key) == Plus(Part(t[i], key), Totals(t[..i] + t[i + 1..], key))
  {
    hide Totals, Part, Plus;
    var front, back := t[..i], t[i + 1..];
    assert t == front + [t[i]] + back;
    TotalsAdd(front, back, key);
    TotalsAdd(front + [t[i]], back, key);
    TotalsAdd(front, [t[i]], key);
    TotalsOfOne(t[i], key);
    PlusLaws(Totals(front, key), Part(t[i], key), Totals(back, key));
    PlusLaws(Part(t[i], key), Totals(front, key), Totals(back, key));
  }

  ghost predicate Appears(rows: seq<UsageRow>, key: GroupKey) {
    exists row :: row in rows && KeyOf(row) == key
  }

  lemma AppearsNext(rows: seq<UsageRow>, i: nat, key: GroupKey)
    requires i < |rows|
    ensures Appears(rows[..i + 1], key) <==> Appears(rows[..i], key) || KeyOf(rows[i]) == key
    ensures Totals(rows[..i + 1], key)
         == if KeyOf(rows[i]) == key then Plus(Totals(rows[..i], key), AmountsOf(rows[i])) else Totals(rows[..i], key)
  {
    hide Totals, Plus, AmountsOf, KeyOf;
    PrefixGrows(rows, i);
    assert forall r :: r in rows[..i + 1] <==> r in rows[..i] || r == rows[i];
    TotalsAdd(rows[..i], [rows[i]], key);
    TotalsOfOne(rows[i], key);
    PlusLaws(Totals(rows[..i], key), NOTHING, NOTHING);
  }

  function SummaryFor(sums: map<GroupKey, Amounts>): GroupKey -> Summary {
    (key: GroupKey) => Summary(key, if key in sums then sums[key] else NOTHING)
  }

  /** Accumulates the rows that match in a map, in order of first appearance of their groups, and
      sorts the groups by `order`. */
  method SummarizeModelUsageRows(rows: seq<UsageRow>, filter: UsageFilter, order: (Summary, Summary) -> bool)
    returns (summaries: seq<Summary>)
    ensures NoDuplicates(summaries)
    ensures forall s :: s in summaries <==>
              s.amounts == Totals(rows, s.key) && MatchesKey(s.key, filter) && Appears(rows, s.key)
    ensures TotalPreorder(order) ==> Sorted(summaries, order)
  {
    var keys: seq<GroupKey> := [];
    var sums: map<GroupKey, Amounts> := map[];
    for i := 0 to |rows|
      invariant Accumulated(rows[..i], filter, keys, sums)
    {
      var row := rows[i];
      Accumulate(rows, i, filter, keys, sums);
      if MatchesKey(KeyOf(row), filter) {
        if KeyOf(row) !in sums {
          keys := keys + [KeyOf(row)];
          sums := sums[KeyOf(row) := NOTHING];
        }
        sums := sums[KeyOf(row) := Plus(sums[KeyOf(row)], AmountsOf(row))];
      }
    }
    assert rows[..|rows|] == rows;
    var unsorted := Map(keys, SummaryFor(sums));
    Collected(rows, filter, keys, sums);
    summaries := Sort(unsorted, order);
    SortPermutes(unsorted, order);
    SortMembers(unsorted, order);
    PermutedNoDuplicates(unsorted, summaries);
    if TotalPreorder(order) {
      SortSorts(unsorted, order);
    }
  }

  ghost predicate Accumulated(rows: seq<UsageRow>, filter: UsageFilter, keys: seq<GroupKey>,
                              sums: map<GroupKey, Amounts>) {
    && NoDuplicates(keys)
    && (forall key :: key in keys <==> key in sums)
    && (forall key :: key in sums <==> MatchesKey(key, filter) && Appears(rows, key))
    && (forall key :: key in sums ==> sums[key] == Totals(rows, key))
  }

  lemma {:induction false} NoneTotals(rows: seq<UsageRow>, key: GroupKey)
    requires !Appears(rows, key)
    ensures Totals(rows, key) == NOTHING
  {
    if rows != [] {
      assert rows[0] in rows && forall row :: row in rows[1..] ==> row in rows;
      NoneTotals(rows[1..], key);
    }
  }

  lemma Accumulate(rows: seq<UsageRow>, i: nat, filter: UsageFilter, keys: seq<GroupKey>, sums: map<GroupKey, Amounts>)
    requires i < |rows| && Accumulated(rows[..i], filter, keys, sums)
    ensures var key := KeyOf(rows[i]);
            if !MatchesKey(key, filter) then Accumulated(rows[..i + 1], filter, keys, sums)
            else
              var before := if key in sums then sums[key] else NOTHING;
              Accumulated(rows[..i + 1], filter, if key in sums then keys else keys + [key],
                          sums[key := Plus(before, AmountsOf(rows[i]))])
  {
    hide Totals, Plus, AmountsOf, KeyOf, MatchesKey, Appears;
    forall key
      ensures Appears(rows[..i + 1], key) <==> Appears(rows[..i], key) || KeyOf(rows[i]) == key
      ensures Totals(rows[..i + 1], key)
           == if KeyOf(rows[i]) == key then Plus(Totals(rows[..i], key), AmountsOf(rows[i])) else Totals(rows[..i], key)
    {
      AppearsNext(rows, i, key);
    }
    if MatchesKey(KeyOf(rows[i]), filter) && KeyOf(rows[i]) !in sums {
      NoneTotals(rows[..i], KeyOf(rows[i]));
    }
  }

  lemma Collected(rows: seq<UsageRow>, filter: UsageFilter, keys: seq<GroupKey>, sums: map<GroupKey, Amounts>)
    requires Accumulated(rows, filter, keys, sums)
    ensures var summaries := Map(keys, SummaryFor(sums));
            && NoDuplicates(summaries)
            && forall s :: s in summaries <==>
                 s.amounts == Totals(rows, s.key) && MatchesKey(s.key, filter) && Appears(rows, s.key)
  {
    var summaries := Map(keys, SummaryFor(sums));
    forall i, j | 0 <= i < j < |summaries| ensures summaries[i] != summaries[j] {
      assert keys[i] != keys[j] && summaries[i].key == keys[i] && summaries[j].key == keys[j];
    }
    forall s | s in sums ensures Summary(s, sums[s]) in summaries {
      var i :| 0 <= i < |keys| && keys[i] == s;
      assert summaries[i] == Summary(s, sums[s]);
    }
    forall s | s in summaries ensures s.key in sums && s.amounts == sums[s.key] {
      var i :| 0 <= i < |summaries| && summaries[i] == s;
      assert keys[i] in keys;
    }
  }

  // ---------------------------------------------------------------- the write queue

  /** How one call of the sink ends; the row may have been written although the call fails. */
  datatype Outcome = Recorded | FailedBefore | FailedAfter

  /** The queue, the table and the verdict after a flush that nobody interrupts. */
  function Flushed(pending: seq<UsageRow>, table: Table, outcomes: nat -> Outcome, index: nat)
    : (seq<UsageRow>, Table, bool)
    decreases pending
  {
    if pending == [] then (pending, table, true)
    else
      match outcomes(index)
      case Recorded => Flushed(pending[1..], Upserted(table, pending[0]), outcomes, index + 1)
      case FailedBefore => (pending, table, false)
      case FailedAfter => (pending, Upserted(table, pending[0]), false)
  }

  /** The queue of the worker's runtime and the loop that empties it, as one caller sees them. */
  class ModelUsageQueue {
    var pendingModelUsageWrites: seq<UsageRow>
    var table: Table

    constructor ()
      ensures pendingModelUsageWrites == [] && table == map[]
    {
      pendingModelUsageWrites, table := [], map[];
    }

    method EnqueueModelUsageWrite(write: UsageRow)
      modifies this
      ensures pendingModelUsageWrites == old(pendingModelUsageWrites) + [write] && table == old(table)
    {
      pendingModelUsageWrites := pendingModelUsageWrites + [write];
    }

    /** The sink's n-th call ends as `outcomes(n)` says; the first failure is thrown. */
    method FlushPendingModelUsageWrites(outcomes: nat -> Outcome) returns (ok: bool)
      modifies this
      ensures (pendingModelUsageWrites, table, ok) == Flushed(old(pendingModelUsageWrites), old(table), outcomes, 0)
      ensures InOrder(old(pendingModelUsageWrites), old(table), outcomes, 0, pendingModelUsageWrites, table, ok)
    {
      hide Upserted;
      var n: nat := 0;
      FlushedInOrder(pendingModelUsageWrites, table, outcomes, 0);
      while |pendingModelUsageWrites| > 0
        invariant n + |pendingModelUsageWrites| == |old(pendingModelUsageWrites)|
        invariant Flushed(pendingModelUsageWrites, table, outcomes, n)
               == Flushed(old(pendingModelUsageWrites), old(table), outcomes, 0)
        decreases |pendingModelUsageWrites|
      {
        var input := pendingModelUsageWrites[0];
        var outcome := outcomes(n);
        if outcome != FailedBefore {
          table := Upserted(table, input);
        }
        if outcome != Recorded {
          return false;
        }
        pendingModelUsageWrites := pendingModelUsageWrites[1..];
        n := n + 1;
      }
      return true;
    }
  }

  lemma {:induction false} WriteFirst(table: Table, w: UsageRow, writes: seq<UsageRow>)
    ensures WriteAll(Upserted(table, w), writes) == WriteAll(table, [w] + writes)
  {
    var all := [w] + writes;
    if writes == [] {
      assert all[..0] == [] && all[0] == w;
    } else {
      var n := |writes| - 1;
      WriteFirst(table, w, writes[..n]);
      assert all[..n + 1] == [w] + writes[..n] && all[n + 1] == writes[n];
    }
  }

  /** Writes leave the front of the queue while the sink records them, up to the first failure; the
      table holds exactly those, and the failed one when it failed after the write. */
  ghost predicate InOrder(pending: seq<UsageRow>, table: Table, outcomes: nat -> Outcome, index: nat,
                          rest: seq<UsageRow>, after: Table, ok: bool) {
    var n := |pending| - |rest|;
    && 0 <= n && rest == pending[n..]
    && (forall i: nat :: index <= i < index + n ==> outcomes(i) == Recorded)
    && (ok <==> n == |pending|) && (!ok ==> outcomes(index + n) != Recorded)
    && after == WriteAll(table, pending[..if !ok && outcomes(index + n) == FailedAfter then n + 1 else n])
  }

  lemma {:induction false} FlushedInOrder(pending: seq<UsageRow>, table: Table, outcomes: nat -> Outcome, index: nat)
    ensures var (rest, after, ok) := Flushed(pending, table, outcomes, index);
            InOrder(pending, table, outcomes, index, rest, after, ok)
    decreases pending
  {
    hide Upserted;
    if pending != [] && outcomes(index) == Recorded {
      var written := Upserted(table, pending[0]);
      var (rest, after, ok) := Flushed(pending[1..], written, outcomes, index + 1);
      FlushedInOrder(pending[1..], written, outcomes, index + 1);
      hide InOrder, WriteAll;
      OneMoreInOrder(pending, table, outcomes, index, rest, after, ok);
    } else {
      assert pending[..0] == [] && WriteAll(table, []) == table && pending[0..] == pending;
      if pending != [] {
        WriteFirst(table, pending[0], []);
        assert [pending[0]] + [] == pending[..1];
      }
    }
  }

  lemma OneMoreInOrder(pending: seq<UsageRow>, table: Table, outcomes: nat -> Outcome, index: nat,
                       rest: seq<UsageRow>, after: Table, ok: bool)
    requires pending != [] && outcomes(index) == Recorded
    requires InOrder(pending[1..], Upserted(table, pending[0]), outcomes, index + 1, rest, after, ok)
    ensures InOrder(pending, table, outcomes, index, rest, after, ok)
  {
    hide Upserted, WriteAll;
    var n := |pending| - 1 - |rest|;
    var k := if !ok && outcomes(index + 1 + n) == FailedAfter then n + 1 else n;
    WriteFirst(table, pending[0], pending[1..][..k]);
    assert [pending[0]] + pending[1..][..k] == pending[..k + 1];
    assert pending[1..][n..] == pending[n + 1..];
  }

  datatype Flush = Idle | Running | Settled(ok: bool)

  /** A call of `flushModelUsageChanges` that waits: how many writes were queued before it, and
      whether it joined a flush that had already ended. */
  datatype Call = Call(queued: nat, late: bool)

  /** `history` is every write ever queued, `taken` how many of them have been shifted off the queue. */
  datatype Machine = Machine(history: seq<UsageRow>, taken: nat, table: Table, flush: Flush, calls: map<nat, Call>)

  datatype Action =
    | Queue(write: UsageRow)
    | CallFlush(call: nat)
    | SinkEnds(outcome: Outcome)
    | FlushCleared

  predicate Enabled(m: Machine, action: Action) {
    match action
    case Queue(_) => true
    case CallFlush(call) => call !in m.calls
    case SinkEnds(_) => m.flush == Running && m.taken < |m.history|
    case FlushCleared => m.flush.Settled?
  }

  function Apply(m: Machine, action: Action): Machine
    requires Enabled(m, action)
  {
    match action
    case Queue(write) => m.(history := m.history + [write])
    case CallFlush(call) =>
      if m.taken == |m.history| then m
      else m.(flush := if m.flush == Idle then Running else m.flush,
              calls := m.calls[call := Call(|m.history|, m.flush.Settled?)])
    case SinkEnds(outcome) =>
      var written := Upserted(m.table, m.history[m.taken]);
      (match outcome
       case Recorded =>
         m.(table := written, taken := m.taken + 1,
            flush := if m.taken + 1 == |m.history| then Settled(true) else Running)
       case FailedBefore => m.(flush := Settled(false))
       case FailedAfter => m.(table := written, flush := Settled(false)))
    case FlushCleared => m.(flush := Idle, calls := map[])
  }

  /** The calls that return normally in this step. */
  predicate Returns(m: Machine, action: Action, call: nat) {
    match action
    case CallFlush(c) => c == call && m.taken == |m.history|
    case FlushCleared => m.flush == Settled(true) && call in m.calls
    case _ => false
  }

  /** The writes that were queued before a returning call was made. */
  function QueuedBefore(m: Machine, action: Action, call: nat): nat
    requires Returns(m, action, call)
  {
    if action.CallFlush? then |m.history| else m.calls[call].queued
  }

  ghost predicate Inv(m: Machine) {
    && m.taken <= |m.history|
    && (m.table == Written(m.history[..m.taken])
        || (m.taken < |m.history| && m.table == Written(m.history[..m.taken + 1])))
    && (m.flush == Running ==> m.taken < |m.history|)
    && (m.flush == Settled(true) ==> m.table == Written(m.history[..m.taken]))
    && (m.flush == Idle ==> m.calls == map[])
    && (forall c :: c in m.calls ==> m.calls[c].queued <= |m.history|)
    && (forall c :: c in m.calls && m.calls[c].late ==> m.flush.Settled? && m.taken < m.calls[c].queued)
    && (forall c :: c in m.calls && !m.calls[c].late && m.flush == Settled(true) ==> m.calls[c].queued <= m.taken)
  }

  lemma WrittenNext(history: seq<UsageRow>, n: nat)
    requires n < |history|
    ensures Written(history[..n + 1]) == Upserted(Written(history[..n]), history[n])
    ensures Upserted(Written(history[..n + 1]), history[n]) == Written(history[..n + 1])
  {
    assert history[..n + 1][..n] == history[..n];
  }

  lemma QueueKeepsInv(m: Machine, write: UsageRow)
    requires Inv(m)
    ensures Inv(Apply(m, Queue(write)))
  {
    hide Written;
    var longer := m.history + [write];
    assert longer[..m.taken] == m.history[..m.taken];
    assert m.taken < |m.history| ==> longer[..m.taken + 1] == m.history[..m.taken + 1];
  }

  lemma SinkKeepsInv(m: Machine, outcome: Outcome)
    requires Inv(m) && Enabled(m, SinkEnds(outcome))
    ensures Inv(Apply(m, SinkEnds(outcome)))
  {
    WrittenNext(m.history, m.taken);
    hide Written, Upserted;
  }

  lemma StepKeepsInv(m: Machine, action: Action)
    requires Inv(m) && Enabled(m, action)
    ensures Inv(Apply(m, action))
  {
    hide Written;
    match action
    case Queue(write) => QueueKeepsInv(m, write);
    case SinkEnds(outcome) => SinkKeepsInv(m, outcome);
    case _ =>
  }

  ghost predicate Reaches(actions: seq<Action>, m: Machine) {
    if actions == [] then m == Machine([], 0, map[], Idle, map[])
    else
      var n := |actions| - 1;
      exists before :: Reaches(actions[..n], before) && Enabled(before, actions[n]) && m == Apply(before, actions[n])
  }

  lemma {:induction false} RunKeepsInv(actions: seq<Action>, m: Machine)
    requires Reaches(actions, m)
    ensures Inv(m)
  {
    if actions != [] {
      var n := |actions| - 1;
      var before :| Reaches(actions[..n], before) && Enabled(before, actions[n]) && m == Apply(before, actions[n]);
      RunKeepsInv(actions[..n], before);
      hide Inv, Apply, Enabled;
      StepKeepsInv(before, actions[n]);
    } else {
      assert m.history[..0] == [];
    }
  }

  /** Whatever the sink does, a call that returns has put into the table every write that was queued
      before it, one row per id with the last write, exactly when it did not join a flush that had
      ended already; such a late call can return while its own writes are still queued. */
  lemma ReturningFlushExactly(actions: seq<Action>, m: Machine, action: Action, call: nat)
    requires Reaches(actions, m) && Enabled(m, action) && Returns(m, action, call)
    ensures m.taken <= |m.history| && m.table == Written(m.history[..m.taken])
    ensures QueuedBefore(m, action, call) <= m.taken <==> !(action.FlushCleared? && m.calls[call].late)
  {
    RunKeepsInv(actions, m);
    assert action.CallFlush? ==> m.history[..m.taken] == m.history;
  }

  function LateRun(a: UsageRow, b: UsageRow): seq<Action> {
    [Queue(a), CallFlush(1), SinkEnds(Recorded), Queue(b), CallFlush(2)]
  }

  /** Where `LateRun` leads: the second write is queued between the end of a flush and its clearing. */
  function LateState(a: UsageRow, b: UsageRow): Machine {
    Machine([a, b], 1, map[a.id := a], Settled(true), map[1 := Call(1, false), 2 := Call(2, true)])
  }

  /** Such a late call exists. */
  lemma LateCallExists(a: UsageRow, b: UsageRow)
    ensures Reaches(LateRun(a, b), LateState(a, b)) && Enabled(LateState(a, b), FlushCleared)
    ensures Returns(LateState(a, b), FlushCleared, 2)
    ensures QueuedBefore(LateState(a, b), FlushCleared, 2) > LateState(a, b).taken
  {
    ReachedAtStart();
    hide Reaches;
    var m0 := Machine([], 0, map[], Idle, map[]);
    var m1 := m0.(history := [a]);
    var m2 := m1.(flush := Running, calls := map[1 := Call(1, false)]);
    var m3 := Machine([a], 1, map[a.id := a], Settled(true), m2.calls);
    var m4 := m3.(history := [a, b]);
    StepTo([], m0, Queue(a), m1, [Queue(a)]);
    StepTo([Queue(a)], m1, CallFlush(1), m2, [Queue(a), CallFlush(1)]);
    StepTo([Queue(a), CallFlush(1)], m2, SinkEnds(Recorded), m3, [Queue(a), CallFlush(1), SinkEnds(Recorded)]);
    StepTo([Queue(a), CallFlush(1), SinkEnds(Recorded)], m3, Queue(b), m4,
           [Queue(a), CallFlush(1), SinkEnds(Recorded), Queue(b)]);
    StepTo([Queue(a), CallFlush(1), SinkEnds(Recorded), Queue(b)], m4, CallFlush(2), LateState(a, b), LateRun(a, b));
  }

  lemma ReachedAtStart()
    ensures Reaches([], Machine([], 0, map[], Idle, map[]))
  {
  }

  lemma StepTo(actions: seq<Action>, m: Machine, action: Action, next: Machine, longer: seq<Action>)
    requires Reaches(actions, m) && Enabled(m, action) && Apply(m, action) == next && longer == actions + [action]
    ensures Reaches(longer, next)
  {
    assert longer[..|longer| - 1] == actions && longer[|longer| - 1] == action;
  }

  // ---------------------------------------------------------------- the loop is a run

  /** A flush that nobody interrupts is a run of the machine, so what holds of every run holds of the
      loop. */
  lemma {:induction false} FlushIsRun(actions: seq<Action>, m: Machine, outcomes: nat -> Outcome, index: nat)
    returns (longer: seq<Action>, end: Machine)
    requires Reaches(actions, m) && m.flush == Running && m.taken < |m.history|
    ensures Reaches(longer, end) && end.history == m.history && end.calls == m.calls
    ensures end.flush.Settled? && end.taken <= |end.history|
    ensures (end.history[end.taken..], end.table, end.flush.ok)
         == Flushed(m.history[m.taken..], m.table, outcomes, index)
    decreases |m.history| - m.taken
  {
    hide Reaches, Upserted;
    var action := SinkEnds(outcomes(index));
    longer, end := actions + [action], Apply(m, action);
    StepTo(actions, m, action, end, longer);
    assert m.history[m.taken..][1..] == m.history[m.taken + 1..];
    if end.flush == Running {
      longer, end := FlushIsRun(longer, end, outcomes, index + 1);
    } else if outcomes(index) == Recorded {
      assert m.history[m.taken + 1..] == [];
    }
  }

  /** The same from the call that starts it. */
  lemma FlushCallIsRun(actions: seq<Action>, m: Machine, call: nat, outcomes: nat -> Outcome)
    returns (longer: seq<Action>, end: Machine)
    requires Reaches(actions, m) && m.flush == Idle && m.taken < |m.history|
    ensures Reaches(longer, end) && end.history == m.history && end.calls == map[call := Call(|m.history|, false)]
    ensures end.flush.Settled? && end.taken <= |end.history|
    ensures (end.history[end.taken..], end.table, end.flush.ok)
         == Flushed(m.history[m.taken..], m.table, outcomes, 0)
  {
    RunKeepsInv(actions, m);
    assert m.calls == map[];
    hide Reaches;
    var started := Apply(m, CallFlush(call));
    StepTo(actions, m, CallFlush(call), started, actions + [CallFlush(call)]);
    longer, end := FlushIsRun(actions + [CallFlush(call)], started, outcomes, 0);
  }
}
