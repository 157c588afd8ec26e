/** The persisted worker queue: a lease protocol over database rows. Each transaction is one atomic
    step; safety is proved over every run of claims, heartbeats and expiries. */
module WorkerQueue {
  import opened Wrappers

  datatype Status = Queued | Claimed | AwaitingApproval | Completed | Failed | Cancelled | Dead

  datatype AttemptState =
    | AttemptQueued | AttemptClaimed | AttemptAwaitingApproval | RetryScheduled | CancelRequested
    | AttemptCompleted | AttemptCancelled | DeadLettered

  /** One row of `worker_work_records`; times are integer milliseconds. */
  datatype Row = Row(
    id: string, orgId: string, sequence: int, status: Status, attemptState: AttemptState, availableAt: int,
    leaseId: Option<string>, leaseWorkerId: Option<string>, leaseClaimedAt: Option<int>,
    leaseHeartbeatAt: Option<int>, leaseExpiresAt: Option<int>,
    cancelRequestedAt: Option<int>, cancelReason: Option<string>, terminalReason: Option<string>, updatedAt: int)

  type Rows = map<string, Row>

  // ---------------------------------------------------------------- expiry

  predicate Lapsed(row: Row, orgId: string, now: int) {
    && row.orgId == orgId && row.status == Claimed
    && row.leaseExpiresAt.Some? && row.leaseExpiresAt.value <= now
  }

  function WithoutLease(row: Row): Row {
    row.(leaseId := None, leaseWorkerId := None, leaseClaimedAt := None,
         leaseHeartbeatAt := None, leaseExpiresAt := None)
  }

  function CancelLapsed(row: Row, now: int): Row {
    WithoutLease(row).(
      status := Cancelled, attemptState := AttemptCancelled,
      terminalReason := Some(if row.cancelReason.Some? then row.cancelReason.value else "Run cancellation requested."),
      updatedAt := now)
  }

  function Requeue(row: Row, now: int): Row {
    WithoutLease(row).(status := Queued, attemptState := AttemptQueued, updatedAt := now)
  }

  /** What expiry means for one row: a lapsed claim is cancelled if that was asked for, and
      requeued otherwise. */
  function ExpireRow(row: Row, orgId: string, now: int): Row {
    if !Lapsed(row, orgId, now) then row
    else if row.cancelRequestedAt.Some? then CancelLapsed(row, now)
    else Requeue(row, now)
  }

  function Expire(rows: Rows, orgId: string, now: int): Rows {
    map id | id in rows :: ExpireRow(rows[id], orgId, now)
  }

  // ---------------------------------------------------------------- claim

  predicate Claimable(row: Row, orgId: string, now: int) {
    row.orgId == orgId && row.status == Queued && row.availableAt <= now
  }

  /** The claim order. `(orgId, sequence)` is unique in the table, so the source's third key, the
      id, never decides. */
  predicate NotAfter(a: Row, b: Row) {
    a.availableAt < b.availableAt || (a.availableAt == b.availableAt && a.sequence <= b.sequence)
  }

  /** `choice` is the row `SELECT ... FOR UPDATE SKIP LOCKED LIMIT 1` returns while other
      transactions hold locks on `locked`. */
  ghost predicate Selects(rows: Rows, orgId: string, now: int, locked: set<string>, choice: Option<string>) {
    match choice
    case None => forall id :: id in rows && Claimable(rows[id], orgId, now) ==> id in locked
    case Some(id) =>
      && id in rows && id !in locked && Claimable(rows[id], orgId, now)
      && forall other :: other in rows && other !in locked && Claimable(rows[other], orgId, now) ==>
           NotAfter(rows[id], rows[other])
  }

  function ClaimRow(row: Row, workerId: string, leaseMs: int, now: int, leaseId: string): Row {
    row.(status := Claimed, attemptState := AttemptClaimed, leaseId := Some(leaseId), leaseWorkerId := Some(workerId),
         leaseClaimedAt := Some(now), leaseHeartbeatAt := Some(now), leaseExpiresAt := Some(now + leaseMs),
         updatedAt := now)
  }

  // ---------------------------------------------------------------- heartbeat

  ghost predicate HoldsLease(rows: Rows, id: string, leaseId: string) {
    id in rows && rows[id].leaseId == Some(leaseId)
  }

  function ExtendBy(row: Row, extendByMs: Option<int>): int
    requires row.leaseExpiresAt.Some?
  {
    if extendByMs.Some? then extendByMs.value
    else row.leaseExpiresAt.value
         - if row.leaseClaimedAt.Some? then row.leaseClaimedAt.value else row.updatedAt
  }

  function BeatRow(row: Row, extendBy: int, now: int): Row {
    row.(leaseHeartbeatAt := Some(now), leaseExpiresAt := Some(now + extendBy), updatedAt := now)
  }

  // ---------------------------------------------------------------- steps

  datatype Step =
    | Claim(orgId: string, workerId: string, leaseMs: int, now: int, leaseId: string,
            locked: set<string>, choice: Option<string>)
    | Heartbeat(leaseId: string, extendByMs: Option<int>, now: int, holder: Option<string>)
    | ExpireLeases(orgId: string, now: int)

  datatype Response =
    | Thrown(message: string)
    | NoWork
    | ClaimedWork(row: Row)
    | NotFound
    | LostLease
    | CancelRun(row: Row)
    | Continue(row: Row)
    | Expired

  /** A step is possible when the row it names is one the database could have returned. */
  ghost predicate Enabled(rows: Rows, step: Step) {
    match step
    case Claim(orgId, _, leaseMs, now, _, locked, choice) =>
      leaseMs > 0 ==> Selects(Expire(rows, orgId, now), orgId, now, locked, choice)
    case Heartbeat(leaseId, _, _, holder) =>
      match holder {
        case None => forall id :: id in rows ==> rows[id].leaseId != Some(leaseId)
        case Some(id) => HoldsLease(rows, id, leaseId)
      }
    case ExpireLeases(_, _) => true
  }

  ghost function Apply(rows: Rows, step: Step): (Rows, Response)
    requires Enabled(rows, step)
  {
    match step
    case Claim(orgId, workerId, leaseMs, now, leaseId, _, choice) =>
      if leaseMs <= 0 then (rows, Thrown("leaseMs must be positive."))
      else
        var swept := Expire(rows, orgId, now);
        if choice.None? then (swept, NoWork)
        else
          var claimed := ClaimRow(swept[choice.value], workerId, leaseMs, now, leaseId);
          (swept[choice.value := claimed], ClaimedWork(claimed))
    case Heartbeat(_, extendByMs, now, holder) =>
      if holder.None? then (rows, NotFound)
      else
        var row := rows[holder.value];
        if row.status != Claimed || row.leaseId == Some("") then (rows, LostLease)
        else if row.leaseExpiresAt.None? || row.leaseExpiresAt.value <= now then
          (Expire(rows, row.orgId, now), LostLease)
        else if row.cancelRequestedAt.Some? then (rows, CancelRun(row))
        else if ExtendBy(row, extendByMs) <= 0 then (rows, Thrown("extendByMs must be positive."))
        else
          var beaten := BeatRow(row, ExtendBy(row, extendByMs), now);
          (rows[holder.value := beaten], Continue(beaten))
    case ExpireLeases(orgId, now) => (Expire(rows, orgId, now), Expired)
  }

  // ---------------------------------------------------------------- the repository

  class WorkerQueueTable {
    var rows: Rows

    constructor (rows: Rows)
      ensures this.rows == rows
    {
      this.rows := rows;
    }

    /** Two UPDATE statements, one after the other. Together they split the organisation's lapsed
        claims into cancelled and requeued ones and touch nothing else. */
    method ExpirePersistedWorkerLeases(orgId: string, now: int) returns (cancelled: set<string>, requeued: set<string>)
      modifies this
      ensures rows == Expire(old(rows), orgId, now)
      ensures cancelled !! requeued
      ensures cancelled + requeued == set id | id in old(rows) && Lapsed(old(rows)[id], orgId, now)
      ensures forall id :: id in cancelled ==> rows[id] == CancelLapsed(old(rows)[id], now)
      ensures forall id :: id in requeued ==> rows[id] == Requeue(old(rows)[id], now)
    {
      cancelled := set id | id in rows && Lapsed(rows[id], orgId, now) && rows[id].cancelRequestedAt.Some?;
      rows := map id | id in rows :: if id in cancelled then CancelLapsed(rows[id], now) else rows[id];
      requeued := set id | id in rows && Lapsed(rows[id], orgId, now);
      rows := map id | id in rows :: if id in requeued then Requeue(rows[id], now) else rows[id];
    }

    method SelectNext(orgId: string, now: int, locked: set<string>) returns (choice: Option<string>)
      ensures Selects(rows, orgId, now, locked, choice)
    {
      choice := None;
      var candidates := set id | id in rows && id !in locked && Claimable(rows[id], orgId, now);
      var rest := candidates;
      while rest != {}
        invariant rest <= candidates
        invariant choice.None? ==> rest == candidates
        invariant choice.Some? ==> choice.value in candidates
        invariant choice.Some? ==> forall id :: id in candidates - rest ==> NotAfter(rows[choice.value], rows[id])
      {
        var id :| id in rest;
        if choice.None? || !NotAfter(rows[choice.value], rows[id]) {
          choice := Some(id);
        }
        rest := rest - {id};
      }
      forall id | choice.None? && id in rows && Claimable(rows[id], orgId, now) ensures id in locked {
        assert id !in candidates;
      }
    }

    method ClaimNextAvailable(
      orgId: string, workerId: string, leaseMs: int, now: int, leaseId: string, locked: set<string>)
      returns (response: Response, ghost choice: Option<string>)
      modifies this
      ensures var step := Claim(orgId, workerId, leaseMs, now, leaseId, locked, choice);
              Enabled(old(rows), step) && (rows, response) == Apply(old(rows), step)
    {
      choice := None;
      if leaseMs <= 0 {
        return Thrown("leaseMs must be positive."), None;
      }
      var _, _ := ExpirePersistedWorkerLeases(orgId, now);
      var selected := SelectNext(orgId, now, locked);
      choice := selected;
      if selected.None? {
        response := NoWork;
      } else {
        var claimed := ClaimRow(rows[selected.value], workerId, leaseMs, now, leaseId);
        rows := rows[selected.value := claimed];
        response := ClaimedWork(claimed);
      }
    }

    method HeartbeatLease(leaseId: string, extendByMs: Option<int>, now: int)
      returns (response: Response, ghost holder: Option<string>)
      modifies this
      ensures var step := Heartbeat(leaseId, extendByMs, now, holder);
              Enabled(old(rows), step) && (rows, response) == Apply(old(rows), step)
    {
      var found := set id | id in rows && rows[id].leaseId == Some(leaseId);
      if found == {} {
        holder := None;
        forall id | id in rows ensures rows[id].leaseId != Some(leaseId) {
          assert id !in found;
        }
        return NotFound, None;
      }
      var id :| id in found;
      holder := Some(id);
      var row := rows[id];
      if row.status != Claimed || row.leaseId == Some("") {
        response := LostLease;
      } else if row.leaseExpiresAt.None? || row.leaseExpiresAt.value <= now {
        var _, _ := ExpirePersistedWorkerLeases(row.orgId, now);
        response := LostLease;
      } else if row.cancelRequestedAt.Some? {
        response := CancelRun(row);
      } else {
        var extendBy := ExtendBy(row, extendByMs);
        if extendBy <= 0 {
          response := Thrown("extendByMs must be positive.");
        } else {
          var beaten := BeatRow(row, extendBy, now);
          rows := rows[id := beaten];
          response := Continue(beaten);
        }
      }
    }

    method ExpireLeasesNow(orgId: string, now: int) returns (cancelled: set<string>, requeued: set<string>)
      modifies this
      ensures (rows, Expired) == Apply(old(rows), ExpireLeases(orgId, now))
      ensures cancelled + requeued == set id | id in old(rows) && Lapsed(old(rows)[id], orgId, now)
    {
      cancelled, requeued := ExpirePersistedWorkerLeases(orgId, now);
    }
  }

  // ---------------------------------------------------------------- the invariant

  /** Claimed exactly when every lease column is set, and then the lease outlasts its last beat. */
  predicate LeaseCoherent(row: Row, clock: int) {
    if row.status == Claimed then
      && row.leaseId.Some? && row.leaseWorkerId.Some? && row.leaseClaimedAt.Some?
      && row.leaseHeartbeatAt.Some? && row.leaseExpiresAt.Some?
      && row.leaseClaimedAt.value <= row.leaseHeartbeatAt.value <= clock
      && row.leaseHeartbeatAt.value < row.leaseExpiresAt.value
    else
      && row.leaseId.None? && row.leaseWorkerId.None? && row.leaseClaimedAt.None?
      && row.leaseHeartbeatAt.None? && row.leaseExpiresAt.None?
  }

  /** `used` are the lease ids handed out so far, `clock` the time of the last step. */
  ghost predicate Inv(rows: Rows, clock: int, used: set<string>) {
    && (forall id :: id in rows ==> LeaseCoherent(rows[id], clock))
    && (forall id :: id in rows && rows[id].leaseId.Some? ==> rows[id].leaseId.value in used)
    && (forall i, j :: i in rows && j in rows && rows[i].leaseId.Some? && rows[i].leaseId == rows[j].leaseId ==> i == j)
  }

  /** The clock does not run backwards and a claim brings a lease id never used before. */
  ghost predicate Allowed(rows: Rows, step: Step, clock: int, used: set<string>) {
    && Enabled(rows, step)
    && clock <= step.now
    && (step.Claim? ==> step.leaseId !in used)
  }

  function UsedAfter(step: Step, used: set<string>): set<string> {
    if step.Claim? then used + {step.leaseId} else used
  }

  lemma ExpireKeepsInv(rows: Rows, orgId: string, now: int, clock: int, used: set<string>)
    requires Inv(rows, clock, used) && clock <= now
    ensures Inv(Expire(rows, orgId, now), now, used)
  {
    var swept := Expire(rows, orgId, now);
    forall id | id in rows
      ensures LeaseCoherent(swept[id], now) && (swept[id].leaseId.Some? ==> swept[id].leaseId == rows[id].leaseId)
    {
      assert LeaseCoherent(rows[id], clock);
    }
  }

  /** Writing one row keeps the invariant when its lease, if any, is its own. */
  lemma WriteKeepsInv(rows: Rows, id: string, row: Row, clock: int, used: set<string>, now: int, used': set<string>)
    requires Inv(rows, clock, used) && clock <= now && used <= used' && id in rows
    requires LeaseCoherent(row, now)
    requires row.leaseId.Some? ==>
               row.leaseId.value in used' && (row.leaseId == rows[id].leaseId || row.leaseId.value !in used)
    ensures Inv(rows[id := row], now, used')
  {
    var next := rows[id := row];
    forall i | i in next ensures LeaseCoherent(next[i], now) {
      assert i != id ==> LeaseCoherent(rows[i], clock);
    }
  }

  lemma StepKeepsInv(rows: Rows, step: Step, clock: int, used: set<string>)
    requires Inv(rows, clock, used) && Allowed(rows, step, clock, used)
    ensures Inv(Apply(rows, step).0, step.now, UsedAfter(step, used))
    ensures Apply(rows, step).0.Keys == rows.Keys
  {
    var used' := UsedAfter(step, used);
    forall id | id in rows ensures LeaseCoherent(rows[id], step.now) {
      assert LeaseCoherent(rows[id], clock);
    }
    match step {
      case Claim(orgId, workerId, leaseMs, now, leaseId, _, choice) =>
        if leaseMs > 0 {
          ExpireKeepsInv(rows, orgId, now, clock, used);
          var swept := Expire(rows, orgId, now);
          if choice.Some? {
            var claimed := ClaimRow(swept[choice.value], workerId, leaseMs, now, leaseId);
            WriteKeepsInv(swept, choice.value, claimed, now, used, now, used');
          }
        }
      case Heartbeat(_, extendByMs, now, holder) =>
        if holder.Some? {
          var row := rows[holder.value];
          ExpireKeepsInv(rows, row.orgId, now, clock, used);
          if Apply(rows, step).1.Continue? {
            WriteKeepsInv(rows, holder.value, Apply(rows, step).1.row, clock, used, now, used');
          }
        }
      case ExpireLeases(orgId, now) => ExpireKeepsInv(rows, orgId, now, clock, used);
    }
  }

  ghost predicate ValidRun(rows: Rows, steps: seq<Step>, clock: int, used: set<string>)
    decreases |steps|
  {
    steps == []
    || (Allowed(rows, steps[0], clock, used)
        && ValidRun(Apply(rows, steps[0]).0, steps[1..], steps[0].now, UsedAfter(steps[0], used)))
  }

  /** The response to the last step of a run. */
  ghost function LastResponse(rows: Rows, steps: seq<Step>, clock: int, used: set<string>): Response
    requires steps != [] && ValidRun(rows, steps, clock, used)
    decreases |steps|
  {
    var (next, response) := Apply(rows, steps[0]);
    if |steps| == 1 then response else LastResponse(next, steps[1..], steps[0].now, UsedAfter(steps[0], used))
  }

  ghost function After(rows: Rows, steps: seq<Step>, clock: int, used: set<string>): (Rows, int, set<string>)
    requires ValidRun(rows, steps, clock, used)
    decreases |steps|
  {
    if steps == [] then (rows, clock, used)
    else After(Apply(rows, steps[0]).0, steps[1..], steps[0].now, UsedAfter(steps[0], used))
  }

  lemma {:induction false} RunKeepsInv(rows: Rows, steps: seq<Step>, clock: int, used: set<string>)
    requires Inv(rows, clock, used) && ValidRun(rows, steps, clock, used)
    ensures var (rows', clock', used') := After(rows, steps, clock, used);
            Inv(rows', clock', used') && rows'.Keys == rows.Keys && used <= used'
    decreases |steps|
  {
    if steps != [] {
      StepKeepsInv(rows, steps[0], clock, used);
      RunKeepsInv(Apply(rows, steps[0]).0, steps[1..], steps[0].now, UsedAfter(steps[0], used));
    }
  }

  // ---------------------------------------------------------------- exclusivity and fencing

  ghost predicate Held(rows: Rows, id: string, leaseId: string, expiry: int) {
    id in rows && rows[id].status == Claimed && rows[id].leaseId == Some(leaseId)
    && rows[id].leaseExpiresAt == Some(expiry)
  }

  /** A lease id that was handed out once and that no row carries any more. */
  ghost predicate Fenced(rows: Rows, used: set<string>, leaseId: string) {
    leaseId in used && forall id :: id in rows ==> rows[id].leaseId != Some(leaseId)
  }

  /** The expiry last granted to a lease, starting from `expiry`. */
  ghost function LastExpiry(rows: Rows, steps: seq<Step>, clock: int, used: set<string>, leaseId: string,
                            expiry: int): int
    requires ValidRun(rows, steps, clock, used)
    decreases |steps|
  {
    if steps == [] then expiry
    else
      var (next, response) := Apply(rows, steps[0]);
      LastExpiry(next, steps[1..], steps[0].now, UsedAfter(steps[0], used), leaseId,
                 NextExpiry(steps[0], response, leaseId, expiry))
  }

  ghost function NextExpiry(step: Step, response: Response, leaseId: string, expiry: int): int {
    if step.Heartbeat? && step.leaseId == leaseId && response.Continue? && response.row.leaseExpiresAt.Some?
    then response.row.leaseExpiresAt.value
    else expiry
  }

  /** A sweep either leaves the holder as it was or takes a lease whose time has come. */
  lemma SweepHeld(rows: Rows, orgId: string, now: int, clock: int, used: set<string>, id: string, leaseId: string,
                  expiry: int)
    requires Inv(rows, clock, used) && Held(rows, id, leaseId, expiry)
    ensures var swept := Expire(rows, orgId, now);
            || Held(swept, id, leaseId, expiry)
            || (Fenced(swept, used, leaseId) && expiry <= now)
  {
    var swept := Expire(rows, orgId, now);
    forall other | other in rows && other != id ensures swept[other].leaseId != Some(leaseId) {
      assert rows[other].leaseId != rows[id].leaseId;
    }
  }

  /** One step from a held lease: still held under the expiry last granted, or lapsed and fenced. */
  lemma HeldOrFenced(rows: Rows, step: Step, clock: int, used: set<string>, id: string, leaseId: string, expiry: int)
    requires Inv(rows, clock, used) && Allowed(rows, step, clock, used) && Held(rows, id, leaseId, expiry)
    ensures var (next, response) := Apply(rows, step);
            var expiry' := NextExpiry(step, response, leaseId, expiry);
            || (Held(next, id, leaseId, expiry') && !(step.Claim? && response.ClaimedWork? && step.choice == Some(id)))
            || (Fenced(next, UsedAfter(step, used), leaseId) && expiry <= step.now && expiry' == expiry)
  {
    match step {
      case Claim(orgId, _, leaseMs, now, _, _, _) =>
        SweepHeld(rows, orgId, now, clock, used, id, leaseId, expiry);
        assert leaseId in used;
      case Heartbeat(beat, _, now, holder) =>
        if holder.Some? {
          SweepHeld(rows, rows[holder.value].orgId, now, clock, used, id, leaseId, expiry);
          assert beat == leaseId <==> holder.value == id;
        }
      case ExpireLeases(orgId, now) => SweepHeld(rows, orgId, now, clock, used, id, leaseId, expiry);
    }
  }

  lemma SweepFenced(rows: Rows, orgId: string, now: int, used: set<string>, leaseId: string)
    requires Fenced(rows, used, leaseId)
    ensures Fenced(Expire(rows, orgId, now), used, leaseId)
  {
    var swept := Expire(rows, orgId, now);
    forall id | id in swept ensures swept[id].leaseId != Some(leaseId) {
      assert rows[id].leaseId != Some(leaseId);
    }
  }

  lemma StaysFenced(rows: Rows, step: Step, clock: int, used: set<string>, leaseId: string)
    requires Allowed(rows, step, clock, used) && Fenced(rows, used, leaseId)
    ensures Fenced(Apply(rows, step).0, UsedAfter(step, used), leaseId)
    ensures step.Heartbeat? && step.leaseId == leaseId ==> Apply(rows, step).1 == NotFound
    ensures forall expiry :: NextExpiry(step, Apply(rows, step).1, leaseId, expiry) == expiry
  {
    match step {
      case Claim(orgId, _, _, now, _, _, _) => SweepFenced(rows, orgId, now, used, leaseId);
      case Heartbeat(_, _, now, holder) =>
        if holder.Some? {
          SweepFenced(rows, rows[holder.value].orgId, now, used, leaseId);
        }
      case ExpireLeases(orgId, now) => SweepFenced(rows, orgId, now, used, leaseId);
    }
  }

  /** The last step of the run claims the record. */
  ghost predicate EndsClaiming(rows: Rows, steps: seq<Step>, clock: int, used: set<string>, id: string) {
    && steps != [] && ValidRun(rows, steps, clock, used)
    && steps[|steps| - 1].Claim? && steps[|steps| - 1].choice == Some(id)
    && LastResponse(rows, steps, clock, used).ClaimedWork?
  }

  /** If a record held under a lease is claimed again, that happens no earlier than the expiry last
      granted to the lease, and the old lease is fenced from then on. */
  lemma {:induction false} LeaseIsExclusive(
    rows: Rows, steps: seq<Step>, clock: int, used: set<string>, id: string, leaseId: string, expiry: int)
    requires Inv(rows, clock, used) && Held(rows, id, leaseId, expiry)
    requires EndsClaiming(rows, steps, clock, used, id)
    ensures steps[|steps| - 1].now >= LastExpiry(rows, steps, clock, used, leaseId, expiry)
    ensures var (rows', _, used') := After(rows, steps, clock, used); Fenced(rows', used', leaseId)
    decreases |steps|
  {
    hide Inv, Fenced, Held;
    var (next, response) := Apply(rows, steps[0]);
    HeldOrFenced(rows, steps[0], clock, used, id, leaseId, expiry);
    StepKeepsInv(rows, steps[0], clock, used);
    var expiry' := NextExpiry(steps[0], response, leaseId, expiry);
    var used' := UsedAfter(steps[0], used);
    if Held(next, id, leaseId, expiry') && |steps| > 1 {
      LeaseIsExclusive(next, steps[1..], steps[0].now, used', id, leaseId, expiry');
    } else {
      FencedForever(next, steps[1..], steps[0].now, used', leaseId, expiry');
    }
  }

  /** No run ever revives a fenced lease: every heartbeat on it answers "not found". */
  lemma {:induction false} FencedForever(
    rows: Rows, steps: seq<Step>, clock: int, used: set<string>, leaseId: string, expiry: int)
    requires Inv(rows, clock, used) && ValidRun(rows, steps, clock, used) && Fenced(rows, used, leaseId)
    ensures LastExpiry(rows, steps, clock, used, leaseId, expiry) == expiry
    ensures steps != [] ==> clock <= steps[|steps| - 1].now
    ensures var (rows', _, used') := After(rows, steps, clock, used); Fenced(rows', used', leaseId)
    ensures steps != [] && steps[|steps| - 1].Heartbeat? && steps[|steps| - 1].leaseId == leaseId ==>
              LastResponse(rows, steps, clock, used) == NotFound
    decreases |steps|
  {
    hide Inv, Fenced, Apply, Enabled, NextExpiry;
    if steps != [] {
      StaysFenced(rows, steps[0], clock, used, leaseId);
      StepKeepsInv(rows, steps[0], clock, used);
      FencedForever(
        Apply(rows, steps[0]).0, steps[1..], steps[0].now, UsedAfter(steps[0], used), leaseId, expiry);
    }
  }

  // ---------------------------------------------------------------- cancellation and expiry

  /** Expiry leaves no lapsed claim behind and no row of another organisation touched. */
  lemma ExpireClearsLapsed(rows: Rows, orgId: string, now: int)
    ensures forall id :: id in rows ==> !Lapsed(Expire(rows, orgId, now)[id], orgId, now)
    ensures forall id :: id in rows && rows[id].orgId != orgId ==> Expire(rows, orgId, now)[id] == rows[id]
    ensures Expire(Expire(rows, orgId, now), orgId, now) == Expire(rows, orgId, now)
  {
    var swept := Expire(rows, orgId, now);
    forall id | id in rows ensures ExpireRow(swept[id], orgId, now) == swept[id] {
    }
    assert Expire(swept, orgId, now) == swept;
  }

  lemma OneStepRun(rows: Rows, step: Step, clock: int, used: set<string>)
    requires Allowed(rows, step, clock, used)
    ensures ValidRun(rows, [step], clock, used)
    ensures LastResponse(rows, [step], clock, used) == Apply(rows, step).1
  {
    assert [step][1..] == [];
    assert ValidRun(Apply(rows, step).0, [], step.now, UsedAfter(step, used));
  }

  ghost predicate ClaimableLater(rows: Rows, clock: int, used: set<string>, id: string) {
    exists steps :: EndsClaiming(rows, steps, clock, used, id)
  }

  lemma CancelRequestStays(rows: Rows, step: Step, id: string)
    requires Enabled(rows, step) && id in rows && rows[id].cancelRequestedAt.Some? && rows[id].status != Queued
    ensures var (next, response) := Apply(rows, step);
            && id in next && next[id].cancelRequestedAt.Some? && next[id].status != Queued
            && !(response.ClaimedWork? && step.Claim? && step.choice == Some(id))
  {
  }

  /** A record with a cancellation request that is not queued is never claimed again. */
  lemma {:induction false} CancelRequestedNeverClaimed(
    rows: Rows, steps: seq<Step>, clock: int, used: set<string>, id: string)
    requires ValidRun(rows, steps, clock, used)
    requires id in rows && rows[id].cancelRequestedAt.Some? && rows[id].status != Queued
    ensures !EndsClaiming(rows, steps, clock, used, id)
    decreases |steps|
  {
    if steps != [] {
      CancelRequestStays(rows, steps[0], id);
      CancelRequestedNeverClaimed(
        Apply(rows, steps[0]).0, steps[1..], steps[0].now, UsedAfter(steps[0], used), id);
    }
  }

  /** The claim query does not look at `cancelRequestedAt`, so a queued row with a request can be
      claimed; for a row with a request, being queued is exactly what makes that possible. */
  lemma CancelRequestedClaimableExactly(rows: Rows, clock: int, used: set<string>, id: string, freshLease: string)
    requires Inv(rows, clock, used) && id in rows && rows[id].cancelRequestedAt.Some? && freshLease !in used
    ensures ClaimableLater(rows, clock, used, id) <==> rows[id].status == Queued
  {
    if rows[id].status == Queued {
      var row := rows[id];
      var now := if row.availableAt <= clock then clock else row.availableAt;
      var step := Claim(row.orgId, "worker", 1, now, freshLease, rows.Keys - {id}, Some(id));
      assert Expire(rows, row.orgId, now)[id] == row;
      assert Allowed(rows, step, clock, used);
      OneStepRun(rows, step, clock, used);
      assert EndsClaiming(rows, [step], clock, used, id);
    } else {
      forall steps | ValidRun(rows, steps, clock, used) ensures !EndsClaiming(rows, steps, clock, used, id) {
        CancelRequestedNeverClaimed(rows, steps, clock, used, id);
      }
    }
  }

  // ---------------------------------------------------------------- requests and claims interleaved

  predicate Active(row: Row) {
    row.status == Queued || row.status == Claimed || row.status == AwaitingApproval
  }

  /** A request to cancel ends a record at once unless a worker holds it. */
  function RequestCancel(row: Row, reason: string, now: int): Row {
    var requested := row.(cancelRequestedAt := Some(now), cancelReason := Some(reason), updatedAt := now);
    if !Active(row) then row
    else if row.status == Claimed then requested.(attemptState := CancelRequested)
    else WithoutLease(requested).(
      status := Cancelled, attemptState := AttemptCancelled, terminalReason := Some(reason))
  }

  datatype Act =
    | Take(step: Step)
    | RequestCancellation(ids: set<string>, reason: string, now: int)

  ghost predicate Possible(rows: Rows, act: Act) {
    act.Take? ==> Enabled(rows, act.step)
  }

  ghost function Acted(rows: Rows, act: Act): Rows
    requires Possible(rows, act)
  {
    match act
    case Take(step) => Apply(rows, step).0
    case RequestCancellation(ids, reason, now) =>
      map id | id in rows :: if id in ids then RequestCancel(rows[id], reason, now) else rows[id]
  }

  /** The act claims a record that has a cancellation request. */
  ghost predicate ClaimsRequested(rows: Rows, act: Act)
    requires Possible(rows, act)
  {
    && act.Take? && Apply(rows, act.step).1.ClaimedWork?
    && Apply(rows, act.step).1.row.cancelRequestedAt.Some?
  }

  ghost predicate NoQueuedRequest(rows: Rows) {
    forall id :: id in rows && rows[id].status == Queued ==> rows[id].cancelRequestedAt.None?
  }

  lemma SweepKeepsNoQueuedRequest(rows: Rows, orgId: string, now: int)
    requires NoQueuedRequest(rows)
    ensures NoQueuedRequest(Expire(rows, orgId, now))
  {
  }

  /** No act queues a record that has a request, and so none claims one. */
  lemma ActKeepsNoQueuedRequest(rows: Rows, act: Act)
    requires NoQueuedRequest(rows) && Possible(rows, act)
    ensures NoQueuedRequest(Acted(rows, act)) && !ClaimsRequested(rows, act)
  {
    match act
    case RequestCancellation(_, _, _) =>
    case Take(step) =>
      match step
      case Claim(orgId, _, leaseMs, now, _, _, choice) =>
        SweepKeepsNoQueuedRequest(rows, orgId, now);
      case Heartbeat(_, _, now, holder) =>
        if holder.Some? {
          SweepKeepsNoQueuedRequest(rows, rows[holder.value].orgId, now);
        }
      case ExpireLeases(orgId, now) =>
        SweepKeepsNoQueuedRequest(rows, orgId, now);
  }

  ghost predicate Interleaving(rows: Rows, acts: seq<Act>)
    decreases acts
  {
    acts != [] ==> Possible(rows, acts[0]) && Interleaving(Acted(rows, acts[0]), acts[1..])
  }

  ghost predicate NeverClaimsRequested(rows: Rows, acts: seq<Act>)
    requires Interleaving(rows, acts)
    decreases acts
  {
    acts != [] ==> !ClaimsRequested(rows, acts[0]) && NeverClaimsRequested(Acted(rows, acts[0]), acts[1..])
  }

  /** Since requests end unclaimed records at once, no interleaving of requests, claims, heartbeats
      and expiries ever claims a record that has a request. */
  lemma {:induction false} RequestedIsNeverClaimed(rows: Rows, acts: seq<Act>)
    requires NoQueuedRequest(rows) && Interleaving(rows, acts)
    ensures NeverClaimsRequested(rows, acts)
    decreases acts
  {
    hide NoQueuedRequest, Possible, Acted, ClaimsRequested;
    if acts != [] {
      ActKeepsNoQueuedRequest(rows, acts[0]);
      RequestedIsNeverClaimed(Acted(rows, acts[0]), acts[1..]);
    }
  }

  // ---------------------------------------------------------------- how far a heartbeat reaches

  /** A heartbeat without an explicit extension moves the expiry forward by the time since the claim,
      so never back; with one, it moves it back exactly when the extension is shorter than what is
      left. */
  lemma HeartbeatMovesExpiry(rows: Rows, step: Step, clock: int, used: set<string>)
    requires Inv(rows, clock, used) && Allowed(rows, step, clock, used)
    requires step.Heartbeat? && Apply(rows, step).1.Continue?
    ensures var before, after := rows[step.holder.value], Apply(rows, step).1.row;
            && after.leaseExpiresAt.value > step.now
            && (step.extendByMs.None? ==>
                  after.leaseExpiresAt.value - before.leaseExpiresAt.value == step.now - before.leaseClaimedAt.value
                  && after.leaseExpiresAt.value >= before.leaseExpiresAt.value)
            && (step.extendByMs.Some? ==>
                  (after.leaseExpiresAt.value < before.leaseExpiresAt.value <==>
                   step.extendByMs.value < before.leaseExpiresAt.value - step.now))
  {
    assert LeaseCoherent(rows[step.holder.value], clock);
  }
}
