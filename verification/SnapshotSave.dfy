/** Saving a snapshot: the organisation's rows are deleted and inserted anew inside a transaction,
    and the model-usage rows that the deletes take with them are put back. */
module SnapshotSave {
  import opened Wrappers
  import opened Lists
  import opened Sorting
  import opened ModelUsage

  datatype EventRow = EventRow(id: string, orgId: string, runId: string)

  /** The tables that model-usage rows refer to: runs and policies by id with their organisation,
      events by id, and the usage rows themselves in some order. */
  datatype Database = Database(
    runs: map<string, string>, events: map<string, EventRow>, policies: map<string, string>, usage: seq<UsageRow>)

  datatype Snapshot = Snapshot(orgId: string, runs: seq<string>, events: seq<EventRow>, policies: seq<string>)

  // ---------------------------------------------------------------- deleting

  function Unlinked(row: UsageRow, events: set<string>, policies: set<string>): UsageRow {
    row.(runEventId := if row.runEventId.Some? && row.runEventId.value in events then row.runEventId else None,
         modelPolicyId :=
           if row.modelPolicyId.Some? && row.modelPolicyId.value in policies then row.modelPolicyId else None)
  }

  function Unlinker(events: set<string>, policies: set<string>): UsageRow -> UsageRow {
    (row: UsageRow) => Unlinked(row, events, policies)
  }

  function RunIn(runs: set<string>): UsageRow -> bool {
    (row: UsageRow) => row.runId in runs
  }

  /** A foreign key to an event or a policy is set to null when its target goes; a usage row goes
      with its run. */
  function Cascaded(usage: seq<UsageRow>, runs: set<string>, events: set<string>,
                    policies: set<string>): seq<UsageRow> {
    Map(Select(usage, RunIn(runs)), Unlinker(events, policies))
  }

  function DeleteEvents(db: Database, orgId: string): Database {
    var events := map id | id in db.events && db.events[id].orgId != orgId :: db.events[id];
    db.(events := events, usage := Cascaded(db.usage, db.runs.Keys, events.Keys, db.policies.Keys))
  }

  function DeleteRuns(db: Database, orgId: string): Database {
    var runs := map id | id in db.runs && db.runs[id] != orgId :: db.runs[id];
    var events := map id | id in db.events && db.events[id].runId in runs :: db.events[id];
    db.(runs := runs, events := events, usage := Cascaded(db.usage, runs.Keys, events.Keys, db.policies.Keys))
  }

  function DeletePolicies(db: Database, orgId: string): Database {
    var policies := map id | id in db.policies && db.policies[id] != orgId :: db.policies[id];
    db.(policies := policies, usage := Cascaded(db.usage, db.runs.Keys, db.events.Keys, policies.Keys))
  }

  function DeleteCurrentSnapshotRows(db: Database, orgId: string): Database {
    DeletePolicies(DeleteRuns(DeleteEvents(db, orgId), orgId), orgId)
  }

  // ---------------------------------------------------------------- inserting

  function InsertIds(table: map<string, string>, ids: seq<string>, orgId: string): Result<map<string, string>>
    decreases ids
  {
    if ids == [] then Ok(table)
    else if ids[0] in table then Err("duplicate key value violates unique constraint")
    else InsertIds(table[ids[0] := orgId], ids[1..], orgId)
  }

  function InsertEvents(table: map<string, EventRow>, runs: map<string, string>, rows: seq<EventRow>)
    : Result<map<string, EventRow>>
    decreases rows
  {
    if rows == [] then Ok(table)
    else if rows[0].id in table then Err("duplicate key value violates unique constraint")
    else if rows[0].runId !in runs then Err("violates foreign key constraint")
    else InsertEvents(table[rows[0].id := rows[0]], runs, rows[1..])
  }

  function InsertSnapshotRows(db: Database, s: Snapshot): Result<Database> {
    var policies :- InsertIds(db.policies, s.policies, s.orgId);
    var runs :- InsertIds(db.runs, s.runs, s.orgId);
    var events :- InsertEvents(db.events, runs, s.events);
    Ok(db.(policies := policies, runs := runs, events := events))
  }

  // ---------------------------------------------------------------- preserving

  function SetOf(ids: seq<string>): set<string> {
    set id | id in ids
  }

  function EventIds(s: Snapshot): set<string> {
    set e | e in s.events :: e.id
  }

  function OwnedBy(orgId: string, runs: set<string>): UsageRow -> bool {
    (row: UsageRow) => row.orgId == orgId && row.runId in runs
  }

  function PreserveModelUsageRowsForSnapshot(s: Snapshot, existing: seq<UsageRow>): seq<UsageRow> {
    Map(Select(existing, OwnedBy(s.orgId, SetOf(s.runs))), Unlinker(EventIds(s), SetOf(s.policies)))
  }

  /** `byId` is the database's order of ids. */
  function ReadPreservedModelUsageRows(db: Database, s: Snapshot, byId: (UsageRow, UsageRow) -> bool): seq<UsageRow> {
    if s.runs == [] then []
    else
      PreserveModelUsageRowsForSnapshot(s, Sort(Select(db.usage, OwnedBy(s.orgId, SetOf(s.runs))), byId))
  }

  predicate HasId(usage: seq<UsageRow>, id: string) {
    exists row :: row in usage && row.id == id
  }

  /** Insertion that skips ids already there. */
  function Restored(usage: seq<UsageRow>, rows: seq<UsageRow>): seq<UsageRow>
    decreases rows
  {
    if rows == [] then usage
    else Restored(if HasId(usage, rows[0].id) then usage else usage + [rows[0]], rows[1..])
  }

  function Saved(db: Database, s: Snapshot, byId: (UsageRow, UsageRow) -> bool): Result<Database> {
    var preserved := ReadPreservedModelUsageRows(db, s, byId);
    var inserted :- InsertSnapshotRows(DeleteCurrentSnapshotRows(db, s.orgId), s);
    Ok(inserted.(usage := Restored(inserted.usage, preserved)))
  }

  class SnapshotRepository {
    var db: Database

    constructor (db: Database)
      ensures this.db == db
    {
      this.db := db;
    }

    /** The statements run one after the other on `db`; a failing one rolls the transaction back. */
    method SaveSnapshot(s: Snapshot, byId: (UsageRow, UsageRow) -> bool) returns (result: Result<Database>)
      modifies this
      ensures result == Saved(old(db), s, byId)
      ensures db == if result.Ok? then result.value else old(db)
    {
      var before := db;
      var preserved := ReadPreservedModelUsageRows(db, s, byId);
      db := DeleteEvents(db, s.orgId);
      db := DeleteRuns(db, s.orgId);
      db := DeletePolicies(db, s.orgId);
      var inserted := InsertSnapshotRows(db, s);
      if inserted.Err? {
        db := before;
        return Err(inserted.error);
      }
      db := inserted.value;
      var i := 0;
      assert preserved[0..] == preserved;
      while i < |preserved|
        invariant 0 <= i <= |preserved|
        invariant db == inserted.value.(usage := db.usage)
        invariant Restored(db.usage, preserved[i..]) == Restored(inserted.value.usage, preserved)
      {
        assert preserved[i..][0] == preserved[i] && preserved[i..][1..] == preserved[i + 1..];
        if !HasId(db.usage, preserved[i].id) {
          db := db.(usage := db.usage + [preserved[i]]);
        }
        i := i + 1;
      }
      return Ok(db);
    }
  }

  // ---------------------------------------------------------------- referential integrity

  ghost predicate UniqueIds(usage: seq<UsageRow>) {
    forall i, j :: 0 <= i < j < |usage| ==> usage[i].id != usage[j].id
  }

  ghost predicate LinksHold(row: UsageRow, runs: set<string>, events: set<string>, policies: set<string>) {
    && row.runId in runs
    && (row.runEventId.Some? ==> row.runEventId.value in events)
    && (row.modelPolicyId.Some? ==> row.modelPolicyId.value in policies)
  }

  /** What the database's constraints guarantee. */
  ghost predicate Consistent(db: Database) {
    && UniqueIds(db.usage)
    && (forall row :: row in db.usage ==> LinksHold(row, db.runs.Keys, db.events.Keys, db.policies.Keys))
    && (forall id :: id in db.events ==> db.events[id].id == id && db.events[id].runId in db.runs)
  }

  lemma {:induction false} SelectIds(usage: seq<UsageRow>, p: UsageRow -> bool)
    requires UniqueIds(usage)
    ensures UniqueIds(Select(usage, p))
  {
    if usage != [] {
      SelectIds(usage[1..], p);
      SelectMembers(usage[1..], p);
      var rest := Select(usage[1..], p);
      forall j | 0 <= j < |rest| ensures rest[j].id != usage[0].id {
        assert rest[j] in usage[1..];
      }
    }
  }

  lemma CascadedHolds(usage: seq<UsageRow>, runs: set<string>, events: set<string>, policies: set<string>)
    requires UniqueIds(usage)
    ensures UniqueIds(Cascaded(usage, runs, events, policies))
    ensures forall row :: row in Cascaded(usage, runs, events, policies) ==> LinksHold(row, runs, events, policies)
  {
    SelectIds(usage, RunIn(runs));
    SelectMembers(usage, RunIn(runs));
    var kept := Select(usage, RunIn(runs));
    var after := Cascaded(usage, runs, events, policies);
    forall row | row in after ensures LinksHold(row, runs, events, policies) {
      var i :| 0 <= i < |after| && after[i] == row;
      assert kept[i] in kept;
    }
  }

  lemma DeletesKeepConsistency(db: Database, orgId: string)
    requires Consistent(db)
    ensures Consistent(DeleteCurrentSnapshotRows(db, orgId))
  {
    var d1 := DeleteEvents(db, orgId);
    var d2 := DeleteRuns(d1, orgId);
    CascadedHolds(db.usage, d1.runs.Keys, d1.events.Keys, d1.policies.Keys);
    CascadedHolds(d1.usage, d2.runs.Keys, d2.events.Keys, d2.policies.Keys);
    var d3 := DeletePolicies(d2, orgId);
    CascadedHolds(d2.usage, d3.runs.Keys, d3.events.Keys, d3.policies.Keys);
  }

  lemma {:induction false} InsertedIds(table: map<string, string>, ids: seq<string>, orgId: string)
    requires InsertIds(table, ids, orgId).Ok?
    ensures InsertIds(table, ids, orgId).value.Keys == table.Keys + SetOf(ids)
    ensures forall id :: id in ids ==> id !in table
    decreases ids
  {
    if ids != [] {
      InsertedIds(table[ids[0] := orgId], ids[1..], orgId);
      assert SetOf(ids) == {ids[0]} + SetOf(ids[1..]);
    }
  }

  lemma {:induction false} InsertedEvents(table: map<string, EventRow>, runs: map<string, string>, rows: seq<EventRow>)
    requires InsertEvents(table, runs, rows).Ok?
    requires forall id :: id in table ==> table[id].id == id && table[id].runId in runs
    ensures var after := InsertEvents(table, runs, rows).value;
            && after.Keys == table.Keys + (set e | e in rows :: e.id)
            && (forall id :: id in after ==> after[id].id == id && after[id].runId in runs)
    decreases rows
  {
    if rows != [] {
      InsertedEvents(table[rows[0].id := rows[0]], runs, rows[1..]);
      assert (set e | e in rows :: e.id) == {rows[0].id} + (set e | e in rows[1..] :: e.id);
    }
  }

  // ---------------------------------------------------------------- totals

  /** Dropping rows of other groups, or links of any row, does not change a group's totals. */
  lemma {:induction false} SelectTotals(usage: seq<UsageRow>, p: UsageRow -> bool, key: GroupKey)
    requires forall row :: row in usage && KeyOf(row) == key ==> p(row)
    ensures Totals(Select(usage, p), key) == Totals(usage, key)
  {
    if usage != [] {
      hide Plus, AmountsOf, KeyOf;
      assert usage[0] in usage && forall row :: row in usage[1..] ==> row in usage;
      SelectTotals(usage[1..], p, key);
      PlusLaws(Totals(usage[1..], key), NOTHING, NOTHING);
      assert p(usage[0]) ==> Select(usage, p)[0] == usage[0] && Select(usage, p)[1..] == Select(usage[1..], p);
      assert !p(usage[0]) ==> Part(usage[0], key) == NOTHING && Select(usage, p) == Select(usage[1..], p);
    }
  }

  lemma {:induction false} UnlinkTotals(usage: seq<UsageRow>, events: set<string>, policies: set<string>, key: GroupKey)
    ensures Totals(Map(usage, Unlinker(events, policies)), key) == Totals(usage, key)
  {
    if usage != [] {
      UnlinkTotals(usage[1..], events, policies, key);
      var after := Map(usage, Unlinker(events, policies));
      assert after[1..] == Map(usage[1..], Unlinker(events, policies));
      assert Part(after[0], key) == Part(usage[0], key);
    }
  }

  lemma CascadeTotals(usage: seq<UsageRow>, runs: set<string>, events: set<string>, policies: set<string>,
                      key: GroupKey)
    ensures Totals(Cascaded(usage, runs, events, policies), key)
         == if key.runId in runs then Totals(usage, key) else NOTHING
  {
    UnlinkTotals(Select(usage, RunIn(runs)), events, policies, key);
    SelectMembers(usage, RunIn(runs));
    if key.runId in runs {
      SelectTotals(usage, RunIn(runs), key);
    } else {
      NoneTotals(Select(usage, RunIn(runs)), key);
    }
  }

  lemma PreservedTotals(s: Snapshot, db: Database, byId: (UsageRow, UsageRow) -> bool, key: GroupKey)
    ensures Totals(ReadPreservedModelUsageRows(db, s, byId), key)
         == if key.orgId == s.orgId && key.runId in s.runs then Totals(db.usage, key) else NOTHING
  {
    var mine := OwnedBy(s.orgId, SetOf(s.runs));
    var existing := Select(db.usage, mine);
    var sorted := Sort(existing, byId);
    SelectMembers(db.usage, mine);
    SortMembers(existing, byId);
    SortPermutes(existing, byId);
    TotalsPermute(sorted, existing, key);
    SelectMembers(sorted, mine);
    UnlinkTotals(Select(sorted, mine), EventIds(s), SetOf(s.policies), key);
    if key.orgId == s.orgId && key.runId in s.runs {
      SelectTotals(sorted, mine, key);
      SelectTotals(db.usage, mine, key);
    } else {
      NoneTotals(Select(sorted, mine), key);
    }
  }

  // ---------------------------------------------------------------- putting the rows back

  /** Every row of `after` is a row of `before`, perhaps with fewer links. */
  ghost predicate ComesFrom(after: seq<UsageRow>, before: seq<UsageRow>) {
    forall row :: row in after ==> exists was :: was in before && was.id == row.id && was.runId == row.runId
  }

  lemma CascadeComesFrom(usage: seq<UsageRow>, runs: set<string>, events: set<string>, policies: set<string>)
    ensures ComesFrom(Cascaded(usage, runs, events, policies), usage)
  {
    var kept, after := Select(usage, RunIn(runs)), Cascaded(usage, runs, events, policies);
    SelectMembers(usage, RunIn(runs));
    forall row | row in after ensures exists was :: was in usage && was.id == row.id && was.runId == row.runId {
      var i :| 0 <= i < |after| && after[i] == row;
      assert kept[i] in kept;
    }
  }

  lemma ComesFromAll(a: seq<UsageRow>, b: seq<UsageRow>, c: seq<UsageRow>)
    requires ComesFrom(a, b) && ComesFrom(b, c)
    ensures ComesFrom(a, c)
  {
    forall row | row in a ensures exists was :: was in c && was.id == row.id && was.runId == row.runId {
      var mid :| mid in b && mid.id == row.id && mid.runId == row.runId;
    }
  }

  lemma DeletesComeFrom(db: Database, orgId: string)
    ensures ComesFrom(DeleteCurrentSnapshotRows(db, orgId).usage, db.usage)
  {
    var d1 := DeleteEvents(db, orgId);
    var d2 := DeleteRuns(d1, orgId);
    var d3 := DeletePolicies(d2, orgId);
    CascadeComesFrom(db.usage, d1.runs.Keys, d1.events.Keys, d1.policies.Keys);
    CascadeComesFrom(d1.usage, d2.runs.Keys, d2.events.Keys, d2.policies.Keys);
    CascadeComesFrom(d2.usage, d3.runs.Keys, d3.events.Keys, d3.policies.Keys);
    ComesFromAll(d2.usage, d1.usage, db.usage);
    ComesFromAll(d3.usage, d2.usage, db.usage);
  }

  lemma UniquePermuted(s: seq<UsageRow>, t: seq<UsageRow>)
    requires UniqueIds(s) && multiset(s) == multiset(t)
    ensures UniqueIds(t)
  {
    assert NoDuplicates(s);
    PermutedNoDuplicates(s, t);
    forall i, j | 0 <= i < j < |t| ensures t[i].id != t[j].id {
      assert t[i] in multiset(s) && t[j] in multiset(s);
      var k :| 0 <= k < |s| && s[k] == t[i];
      var l :| 0 <= l < |s| && s[l] == t[j];
    }
  }

  lemma ChosenRows(usage: seq<UsageRow>, mine: UsageRow -> bool, byId: (UsageRow, UsageRow) -> bool)
    requires UniqueIds(usage)
    ensures var chosen := Select(Sort(Select(usage, mine), byId), mine);
            UniqueIds(chosen) && forall row :: row in chosen ==> row in usage && mine(row)
  {
    var existing := Select(usage, mine);
    var sorted := Sort(existing, byId);
    SelectMembers(usage, mine);
    SelectIds(usage, mine);
    SortMembers(existing, byId);
    SortPermutes(existing, byId);
    UniquePermuted(existing, sorted);
    SelectMembers(sorted, mine);
    SelectIds(sorted, mine);
  }

  lemma UnlinkedRows(chosen: seq<UsageRow>, runs: set<string>, events: set<string>, policies: set<string>)
    requires UniqueIds(chosen) && forall row :: row in chosen ==> row.runId in runs
    ensures var rows := Map(chosen, Unlinker(events, policies));
            && UniqueIds(rows) && ComesFrom(rows, chosen)
            && forall row :: row in rows ==> LinksHold(row, runs, events, policies)
  {
    var rows := Map(chosen, Unlinker(events, policies));
    forall row | row in rows
      ensures LinksHold(row, runs, events, policies)
      ensures exists was :: was in chosen && was.id == row.id && was.runId == row.runId
    {
      var i :| 0 <= i < |rows| && rows[i] == row;
      assert chosen[i] in chosen;
    }
  }

  lemma PreservedHolds(s: Snapshot, db: Database, byId: (UsageRow, UsageRow) -> bool)
    requires UniqueIds(db.usage)
    ensures var rows := ReadPreservedModelUsageRows(db, s, byId);
            && UniqueIds(rows) && ComesFrom(rows, db.usage)
            && (forall row :: row in rows ==> LinksHold(row, SetOf(s.runs), EventIds(s), SetOf(s.policies)))
  {
    var mine := OwnedBy(s.orgId, SetOf(s.runs));
    var chosen := Select(Sort(Select(db.usage, mine), byId), mine);
    ChosenRows(db.usage, mine, byId);
    UnlinkedRows(chosen, SetOf(s.runs), EventIds(s), SetOf(s.policies));
    hide Select, Sort, Map, LinksHold;
  }

  lemma FreshStaysFresh(usage: seq<UsageRow>, rows: seq<UsageRow>)
    requires rows != [] && UniqueIds(rows) && forall row :: row in rows ==> !HasId(usage, row.id)
    ensures UniqueIds(rows[1..]) && forall row :: row in rows[1..] ==> !HasId(usage + [rows[0]], row.id)
  {
    forall row | row in rows[1..] ensures !HasId(usage + [rows[0]], row.id) {
      assert row in rows;
      var j :| 0 <= j < |rows[1..]| && rows[1..][j] == row;
      assert rows[j + 1].id != rows[0].id;
    }
  }

  lemma {:induction false} NothingSkipped(usage: seq<UsageRow>, rows: seq<UsageRow>)
    requires UniqueIds(rows) && forall row :: row in rows ==> !HasId(usage, row.id)
    ensures Restored(usage, rows) == usage + rows
    decreases rows
  {
    if rows == [] {
      assert usage + rows == usage;
    } else {
      var longer := usage + [rows[0]];
      assert rows[0] in rows;
      FreshStaysFresh(usage, rows);
      NothingSkipped(longer, rows[1..]);
      assert usage + rows == longer + rows[1..];
    }
  }

  lemma DeletedRuns(db: Database, orgId: string)
    ensures forall id :: id in DeleteCurrentSnapshotRows(db, orgId).runs <==> id in db.runs && db.runs[id] != orgId
    ensures forall id :: id in DeleteCurrentSnapshotRows(db, orgId).policies <==>
            id in db.policies && db.policies[id] != orgId
  {
  }

  /** The usage table after a save: the rows that the deletes left, then all preserved rows. */
  lemma SavedUsage(db: Database, s: Snapshot, byId: (UsageRow, UsageRow) -> bool)
    requires Consistent(db) && Saved(db, s, byId).Ok?
    ensures var left, preserved := DeleteCurrentSnapshotRows(db, s.orgId), ReadPreservedModelUsageRows(db, s, byId);
            && Saved(db, s, byId).value.usage == left.usage + preserved
            && UniqueIds(left.usage + preserved)
            && Saved(db, s, byId).value.runs.Keys == left.runs.Keys + SetOf(s.runs)
            && Saved(db, s, byId).value.policies.Keys == left.policies.Keys + SetOf(s.policies)
            && (forall id :: id in s.runs ==> id !in left.runs)
  {
    var left, preserved := DeleteCurrentSnapshotRows(db, s.orgId), ReadPreservedModelUsageRows(db, s, byId);
    DeletesKeepConsistency(db, s.orgId);
    DeletesComeFrom(db, s.orgId);
    PreservedHolds(s, db, byId);
    InsertedIds(left.policies, s.policies, s.orgId);
    InsertedIds(left.runs, s.runs, s.orgId);
    hide DeleteCurrentSnapshotRows, ReadPreservedModelUsageRows;
    assert forall row :: row in left.usage ==> row.runId in left.runs;
    forall row | row in preserved ensures !HasId(left.usage, row.id) {
      if kept :| kept in left.usage && kept.id == row.id {
        SameRow(db.usage, left.usage, kept, preserved, row);
      }
    }
    NothingSkipped(left.usage, preserved);
    Appended(left.usage, preserved);
  }

  lemma SameRow(usage: seq<UsageRow>, a: seq<UsageRow>, x: UsageRow, b: seq<UsageRow>, y: UsageRow)
    requires UniqueIds(usage) && ComesFrom(a, usage) && ComesFrom(b, usage) && x in a && y in b && x.id == y.id
    ensures x.runId == y.runId
  {
    var u :| u in usage && u.id == x.id && u.runId == x.runId;
    var v :| v in usage && v.id == y.id && v.runId == y.runId;
    var i :| 0 <= i < |usage| && usage[i] == u;
    var j :| 0 <= j < |usage| && usage[j] == v;
  }

  lemma Appended(a: seq<UsageRow>, b: seq<UsageRow>)
    requires UniqueIds(a) && UniqueIds(b) && forall row :: row in b ==> !HasId(a, row.id)
    ensures UniqueIds(a + b)
  {
    forall i, j | 0 <= i < j < |a + b| ensures (a + b)[i].id != (a + b)[j].id {
      if i < |a| <= j {
        assert a[i] in a && b[j - |a|] in b;
      }
    }
  }

  // ---------------------------------------------------------------- conservation

  /** The groups whose run is there after the save: runs of other organisations, and the saved
      organisation's usage of the runs in its snapshot. */
  predicate Survives(db: Database, s: Snapshot, key: GroupKey) {
    || (key.runId in db.runs && db.runs[key.runId] != s.orgId)
    || (key.orgId == s.orgId && key.runId in s.runs)
  }

  lemma LeftTotals(db: Database, orgId: string, key: GroupKey)
    ensures Totals(DeleteCurrentSnapshotRows(db, orgId).usage, key)
         == if key.runId in db.runs && db.runs[key.runId] != orgId then Totals(db.usage, key) else NOTHING
  {
    var d1 := DeleteEvents(db, orgId);
    var d2 := DeleteRuns(d1, orgId);
    var d3 := DeletePolicies(d2, orgId);
    CascadeTotals(db.usage, d1.runs.Keys, d1.events.Keys, d1.policies.Keys, key);
    CascadeTotals(d1.usage, d2.runs.Keys, d2.events.Keys, d2.policies.Keys, key);
    CascadeTotals(d2.usage, d3.runs.Keys, d3.events.Keys, d3.policies.Keys, key);
  }

  /** Deleting, cascading, inserting and restoring leaves the totals of every surviving group as
      they were, and nothing of the others. */
  lemma TotalsConserved(db: Database, s: Snapshot, byId: (UsageRow, UsageRow) -> bool, key: GroupKey)
    requires Consistent(db) && Saved(db, s, byId).Ok?
    ensures Totals(Saved(db, s, byId).value.usage, key)
         == if Survives(db, s, key) then Totals(db.usage, key) else NOTHING
  {
    hide *;
    var left, preserved := DeleteCurrentSnapshotRows(db, s.orgId).usage, ReadPreservedModelUsageRows(db, s, byId);
    assert Saved(db, s, byId).value.usage == left + preserved by {
      SavedUsage(db, s, byId);
    }
    RunsStayApart(db, s, byId, key.runId);
    LeftTotals(db, s.orgId, key);
    PreservedTotals(s, db, byId, key);
    TotalsAdd(left, preserved, key);
    PlusLaws(Totals(db.usage, key), NOTHING, NOTHING);
    PlusLaws(NOTHING, NOTHING, NOTHING);
    SurvivesMeans(db, s, key);
  }

  lemma SurvivesMeans(db: Database, s: Snapshot, key: GroupKey)
    ensures Survives(db, s, key) <==>
              (key.runId in db.runs && db.runs[key.runId] != s.orgId) || (key.orgId == s.orgId && key.runId in s.runs)
  {
  }

  /** A saved snapshot cannot contain a run of another organisation. */
  lemma RunsStayApart(db: Database, s: Snapshot, byId: (UsageRow, UsageRow) -> bool, runId: string)
    requires Consistent(db) && Saved(db, s, byId).Ok?
    ensures !(runId in db.runs && db.runs[runId] != s.orgId && runId in s.runs)
  {
    SavedUsage(db, s, byId);
    DeletedRuns(db, s.orgId);
  }

  /** A save keeps the database's constraints. */
  lemma SaveKeepsConsistency(db: Database, s: Snapshot, byId: (UsageRow, UsageRow) -> bool)
    requires Consistent(db) && Saved(db, s, byId).Ok?
    ensures Consistent(Saved(db, s, byId).value)
  {
    var left, after := DeleteCurrentSnapshotRows(db, s.orgId), Saved(db, s, byId).value;
    SavedUsage(db, s, byId);
    SavedEvents(db, s, byId);
    DeletesKeepConsistency(db, s.orgId);
    PreservedHolds(s, db, byId);
    hide DeleteCurrentSnapshotRows, ReadPreservedModelUsageRows, Saved, UniqueIds, LinksHold;
    forall row | row in after.usage ensures LinksHold(row, after.runs.Keys, after.events.Keys, after.policies.Keys) {
      if row in left.usage {
        LinksGrow(row, left.runs.Keys, left.events.Keys, left.policies.Keys, after);
      } else {
        assert row in ReadPreservedModelUsageRows(db, s, byId);
        LinksGrow(row, SetOf(s.runs), EventIds(s), SetOf(s.policies), after);
      }
    }
  }

  lemma LinksGrow(row: UsageRow, runs: set<string>, events: set<string>, policies: set<string>, after: Database)
    requires LinksHold(row, runs, events, policies)
    requires runs <= after.runs.Keys && events <= after.events.Keys && policies <= after.policies.Keys
    ensures LinksHold(row, after.runs.Keys, after.events.Keys, after.policies.Keys)
  {
  }

  lemma SavedEvents(db: Database, s: Snapshot, byId: (UsageRow, UsageRow) -> bool)
    requires Consistent(db) && Saved(db, s, byId).Ok?
    ensures var left, after := DeleteCurrentSnapshotRows(db, s.orgId), Saved(db, s, byId).value;
            && after.events.Keys == left.events.Keys + EventIds(s)
            && forall id :: id in after.events ==> after.events[id].id == id && after.events[id].runId in after.runs
  {
    var left := DeleteCurrentSnapshotRows(db, s.orgId);
    DeletesKeepConsistency(db, s.orgId);
    InsertedIds(left.runs, s.runs, s.orgId);
    InsertedEvents(left.events, InsertIds(left.runs, s.runs, s.orgId).value, s.events);
    hide DeleteCurrentSnapshotRows, ReadPreservedModelUsageRows, InsertIds, InsertEvents, Restored, LinksHold,
         UniqueIds;
  }
}
