/** Merging worker snapshots: last writer wins for records, first writer for dead letters and
    events; and the row-by-row upsert that does the same in the database. */
module ReplicaMerge {
  import opened Wrappers
  import opened Sorting
  import opened Lists

  /** `payload` stands for the columns the merge copies without reading. */
  datatype Record = Record(id: string, orgId: string, sequence: int, updatedAt: int, payload: string)
  datatype DeadLetter = DeadLetter(id: string, orgId: string, workId: string, sequence: int, payload: string)
  datatype Event = Event(id: string, orgId: string, sequence: int, payload: string)
  datatype Rows = Rows(records: seq<Record>, deadLetters: seq<DeadLetter>, events: seq<Event>)

  const EMPTY := Rows([], [], [])

  // ---------------------------------------------------------------- storage ids

  function StorageId(orgId: string, id: string): string {
    if orgId + ":" <= id then id else orgId + ":" + id
  }

  function FromStorageId(orgId: string, id: string): string {
    if orgId + ":" <= id then id[|orgId| + 1..] else id
  }

  /** An id survives storage exactly when it does not already carry its organisation's prefix. */
  lemma StorageIdRoundTrip(orgId: string, id: string)
    ensures FromStorageId(orgId, StorageId(orgId, id)) == id <==> !(orgId + ":" <= id)
  {
    if orgId + ":" <= id {
      assert |id[|orgId| + 1..]| < |id|;
    } else {
      assert (orgId + ":" + id)[|orgId| + 1..] == id;
    }
  }

  lemma StorageIdStarts(orgId: string, id: string)
    ensures orgId + ":" <= StorageId(orgId, id)
  {
  }

  /** Organisations without a colon in their id never share a storage id. */
  lemma StorageIdNamesOrg(a: string, b: string, x: string, y: string)
    requires ':' !in a && ':' !in b && StorageId(a, x) == StorageId(b, y)
    ensures a == b
  {
    var s := StorageId(a, x);
    StorageIdStarts(a, x);
    StorageIdStarts(b, y);
    FirstColon(a, s);
    FirstColon(b, s);
  }

  lemma FirstColon(orgId: string, s: string)
    requires ':' !in orgId && orgId + ":" <= s
    ensures s[|orgId|] == ':' && (forall i :: 0 <= i < |orgId| ==> s[i] != ':') && orgId == s[..|orgId|]
  {
    forall i | 0 <= i < |orgId| ensures s[i] != ':' {
      assert s[i] == (orgId + ":")[i] == orgId[i];
    }
  }

  // ---------------------------------------------------------------- ordered maps of rows

  const RECORD_ID: Record -> string := (r: Record) => r.id
  const LETTER_ID: DeadLetter -> string := (d: DeadLetter) => d.id
  const EVENT_ID: Event -> string := (e: Event) => e.id

  /** A JavaScript `Map` keyed by id, in insertion order, is a list without repeated ids. */
  ghost predicate Unique<T>(rows: seq<T>, key: T -> string) {
    forall i, j :: 0 <= i < j < |rows| ==> key(rows[i]) != key(rows[j])
  }

  function IndexOfId<T>(rows: seq<T>, key: T -> string, id: string): (k: nat)
    ensures k <= |rows| && (k < |rows| ==> key(rows[k]) == id)
    ensures forall i :: 0 <= i < k ==> key(rows[i]) != id
  {
    IndexOf(rows, (row: T) => key(row) == id)
  }

  function Find<T>(rows: seq<T>, key: T -> string, id: string): Option<T> {
    var k := IndexOfId(rows, key, id);
    if k < |rows| then Some(rows[k]) else None
  }

  /** `map.set(row.id, row)`. */
  function Put<T>(rows: seq<T>, key: T -> string, row: T): seq<T> {
    var k := IndexOfId(rows, key, key(row));
    if k < |rows| then rows[k := row] else rows + [row]
  }

  /** `new Map(rows.map(row => [row.id, row]))`. */
  function MapOf<T>(rows: seq<T>, key: T -> string): seq<T> {
    if rows == [] then [] else Put(MapOf(rows[..|rows| - 1], key), key, rows[|rows| - 1])
  }

  // ---------------------------------------------------------------- the merge

  predicate ShouldPersist(existing: Record, incoming: Record) {
    incoming.updatedAt >= existing.updatedAt
  }

  function Take(rs: seq<Record>, r: Record): seq<Record> {
    var current := Find(rs, RECORD_ID, r.id);
    if current.None? || ShouldPersist(current.value, r) then Put(rs, RECORD_ID, r) else rs
  }

  function TakeAll(rs: seq<Record>, incoming: seq<Record>): seq<Record> {
    if incoming == [] then rs
    else Take(TakeAll(rs, incoming[..|incoming| - 1]), incoming[|incoming| - 1])
  }

  function WorkIds(ds: seq<DeadLetter>): set<string> {
    set d | d in ds :: d.workId
  }

  function LetterIds(ds: seq<DeadLetter>): set<string> {
    set d | d in ds :: d.id
  }

  function EventIds(es: seq<Event>): set<string> {
    set e | e in es :: e.id
  }

  /** The source joins the two with a colon; the number after the last colon tells them apart. */
  function Sequences(es: seq<Event>): set<(string, int)> {
    set e | e in es :: (e.orgId, e.sequence)
  }

  function AddLetter(ds: seq<DeadLetter>, workIds: set<string>, d: DeadLetter): seq<DeadLetter> {
    if d.id in LetterIds(ds) || d.workId in workIds + WorkIds(ds) then ds else ds + [d]
  }

  /** `workIds` are those of the rows the map was built from. */
  function AddLetters(ds: seq<DeadLetter>, workIds: set<string>, incoming: seq<DeadLetter>): seq<DeadLetter> {
    if incoming == [] then ds
    else AddLetter(AddLetters(ds, workIds, incoming[..|incoming| - 1]), workIds, incoming[|incoming| - 1])
  }

  function AddEvent(es: seq<Event>, sequences: set<(string, int)>, e: Event): seq<Event> {
    if e.id in EventIds(es) || (e.orgId, e.sequence) in sequences + Sequences(es) then es else es + [e]
  }

  function AddEvents(es: seq<Event>, sequences: set<(string, int)>, incoming: seq<Event>): seq<Event> {
    if incoming == [] then es
    else AddEvent(AddEvents(es, sequences, incoming[..|incoming| - 1]), sequences, incoming[|incoming| - 1])
  }

  const RECORD_ORDER: (Record, Record) -> bool := (a: Record, b: Record) => a.sequence - b.sequence <= 0
  const LETTER_ORDER: (DeadLetter, DeadLetter) -> bool := (a: DeadLetter, b: DeadLetter) => a.sequence - b.sequence <= 0
  const EVENT_ORDER: (Event, Event) -> bool := (a: Event, b: Event) => a.sequence - b.sequence <= 0

  function Merge(existing: Rows, incoming: Rows): Rows {
    Rows(
      Sort(TakeAll(MapOf(existing.records, RECORD_ID), incoming.records), RECORD_ORDER),
      Sort(AddLetters(MapOf(existing.deadLetters, LETTER_ID), WorkIds(existing.deadLetters), incoming.deadLetters),
           LETTER_ORDER),
      Sort(AddEvents(MapOf(existing.events, EVENT_ID), Sequences(existing.events), incoming.events), EVENT_ORDER))
  }

  method BuildMap<T>(rows: seq<T>, key: T -> string) returns (m: seq<T>)
    ensures m == MapOf(rows, key)
  {
    m := [];
    for i := 0 to |rows|
      invariant m == MapOf(rows[..i], key)
    {
      assert rows[..i + 1][..i] == rows[..i];
      m := Put(m, key, rows[i]);
    }
    assert rows[..|rows|] == rows;
  }

  method MergeRecords(existing: seq<Record>, incoming: seq<Record>) returns (records: seq<Record>)
    ensures records == TakeAll(MapOf(existing, RECORD_ID), incoming)
  {
    records := BuildMap(existing, RECORD_ID);
    for i := 0 to |incoming|
      invariant records == TakeAll(MapOf(existing, RECORD_ID), incoming[..i])
    {
      assert incoming[..i + 1][..i] == incoming[..i];
      var current := Find(records, RECORD_ID, incoming[i].id);
      if current.None? || ShouldPersist(current.value, incoming[i]) {
        records := Put(records, RECORD_ID, incoming[i]);
      }
    }
    assert incoming[..|incoming|] == incoming;
  }

  method MergeLetters(existing: seq<DeadLetter>, incoming: seq<DeadLetter>) returns (letters: seq<DeadLetter>)
    ensures letters == AddLetters(MapOf(existing, LETTER_ID), WorkIds(existing), incoming)
  {
    letters := BuildMap(existing, LETTER_ID);
    MapOfSubset(existing, LETTER_ID);
    var ids, workIds := LetterIds(letters), WorkIds(existing);
    for i := 0 to |incoming|
      invariant letters == AddLetters(MapOf(existing, LETTER_ID), WorkIds(existing), incoming[..i])
      invariant ids == LetterIds(letters) && workIds == WorkIds(existing) + WorkIds(letters)
    {
      assert incoming[..i + 1][..i] == incoming[..i];
      if incoming[i].id !in ids && incoming[i].workId !in workIds {
        letters := letters + [incoming[i]];
        ids := ids + {incoming[i].id};
        workIds := workIds + {incoming[i].workId};
      }
    }
    assert incoming[..|incoming|] == incoming;
  }

  method MergeEvents(existing: seq<Event>, incoming: seq<Event>) returns (events: seq<Event>)
    ensures events == AddEvents(MapOf(existing, EVENT_ID), Sequences(existing), incoming)
  {
    events := BuildMap(existing, EVENT_ID);
    MapOfSubset(existing, EVENT_ID);
    var ids, sequences := EventIds(events), Sequences(existing);
    for i := 0 to |incoming|
      invariant events == AddEvents(MapOf(existing, EVENT_ID), Sequences(existing), incoming[..i])
      invariant ids == EventIds(events) && sequences == Sequences(existing) + Sequences(events)
    {
      assert incoming[..i + 1][..i] == incoming[..i];
      if incoming[i].id !in ids && (incoming[i].orgId, incoming[i].sequence) !in sequences {
        events := events + [incoming[i]];
        ids := ids + {incoming[i].id};
        sequences := sequences + {(incoming[i].orgId, incoming[i].sequence)};
      }
    }
    assert incoming[..|incoming|] == incoming;
  }

  method MergeWorkerSnapshotRows(existing: Rows, incoming: Rows) returns (merged: Rows)
    ensures merged == Merge(existing, incoming)
  {
    var records := MergeRecords(existing.records, incoming.records);
    var letters := MergeLetters(existing.deadLetters, incoming.deadLetters);
    var events := MergeEvents(existing.events, incoming.events);
    merged := Rows(Sort(records, RECORD_ORDER), Sort(letters, LETTER_ORDER), Sort(events, EVENT_ORDER));
  }

  // ---------------------------------------------------------------- facts about ordered maps

  lemma FindPut<T>(rows: seq<T>, key: T -> string, row: T, id: string)
    requires Unique(rows, key)
    ensures Unique(Put(rows, key, row), key)
    ensures Find(Put(rows, key, row), key, id) == if id == key(row) then Some(row) else Find(rows, key, id)
  {
    var k, l := IndexOfId(rows, key, id), IndexOfId(Put(rows, key, row), key, id);
    var p := IndexOfId(rows, key, key(row));
    if id == key(row) {
      assert key(Put(rows, key, row)[p]) == id;
      assert l == p;
    } else {
      assert k < |rows| ==> key(Put(rows, key, row)[k]) == id;
    }
  }

  lemma {:induction false} MapOfSubset<T>(rows: seq<T>, key: T -> string)
    ensures Unique(MapOf(rows, key), key)
    ensures forall row :: row in MapOf(rows, key) ==> row in rows
  {
    if rows != [] {
      var front, last := rows[..|rows| - 1], rows[|rows| - 1];
      MapOfSubset(front, key);
      FindPut(MapOf(front, key), key, last, key(last));
      assert forall row :: row in Put(MapOf(front, key), key, last) ==> row in MapOf(front, key) || row == last;
    }
  }

  lemma {:induction false} MapOfUnique<T>(rows: seq<T>, key: T -> string)
    requires Unique(rows, key)
    ensures MapOf(rows, key) == rows
  {
    if rows != [] {
      var n := |rows| - 1;
      MapOfUnique(rows[..n], key);
      assert IndexOfId(rows[..n], key, key(rows[n])) == n;
      assert rows == rows[..n] + [rows[n]];
    }
  }

  /** Where a row is listed does not matter for finding it. */
  lemma FindPermuted<T>(rows: seq<T>, sorted: seq<T>, key: T -> string)
    requires Unique(rows, key) && multiset(rows) == multiset(sorted)
    ensures Unique(sorted, key)
    ensures forall id :: Find(sorted, key, id) == Find(rows, key, id)
  {
    UniqueByCount(rows, sorted, key);
    assert forall row :: row in sorted <==> row in multiset(rows);
    assert forall row :: row in sorted <==> row in rows;
    forall id ensures Find(sorted, key, id) == Find(rows, key, id) {
      var k, l := IndexOfId(rows, key, id), IndexOfId(sorted, key, id);
      if k < |rows| {
        assert rows[k] in sorted;
      }
      if l < |sorted| {
        assert sorted[l] in rows;
      }
    }
  }

  lemma UniqueByCount<T>(rows: seq<T>, sorted: seq<T>, key: T -> string)
    requires Unique(rows, key) && multiset(rows) == multiset(sorted)
    ensures Unique(sorted, key)
  {
    forall i, j | 0 <= i < j < |sorted| ensures key(sorted[i]) != key(sorted[j]) {
      assert sorted[i] in multiset(rows) && sorted[j] in multiset(rows);
      var k :| 0 <= k < |rows| && rows[k] == sorted[i];
      var l :| 0 <= l < |rows| && rows[l] == sorted[j];
      OnceCounts(rows, k, key);
      if k == l {
        TwiceCounts(sorted, i, j);
      }
    }
  }

  lemma TwiceCounts<T>(s: seq<T>, i: nat, j: nat)
    requires i < j < |s| && s[i] == s[j]
    ensures multiset(s)[s[i]] >= 2
  {
    assert s == s[..j] + s[j..];
    assert s[i] in s[..j] && s[i] in s[j..];
  }

  lemma OnceCounts<T>(s: seq<T>, k: nat, key: T -> string)
    requires k < |s| && Unique(s, key)
    ensures multiset(s)[s[k]] == 1
  {
    assert s == s[..k] + [s[k]] + s[k + 1..];
    assert s[k] !in s[..k] && s[k] !in s[k + 1..];
  }

  // ---------------------------------------------------------------- last writer wins

  /** The version that should survive of all those written, in order: the latest, and of equally
      late ones the last. */
  function Winner(all: seq<Record>, id: string): Option<Record> {
    if all == [] then None
    else
      var best, r := Winner(all[..|all| - 1], id), all[|all| - 1];
      if r.id == id && (best.None? || r.updatedAt >= best.value.updatedAt) then Some(r) else best
  }

  /** Version `i` of the record is as late as any and later than those after it. */
  ghost predicate LatestAt(all: seq<Record>, id: string, i: nat) {
    && i < |all| && all[i].id == id
    && (forall j :: 0 <= j < |all| && all[j].id == id ==> all[j].updatedAt <= all[i].updatedAt)
    && (forall j :: i < j < |all| && all[j].id == id ==> all[j].updatedAt < all[i].updatedAt)
  }

  lemma LatestSoFar(all: seq<Record>, id: string, i: nat)
    requires all != [] && LatestAt(all[..|all| - 1], id, i)
    requires all[|all| - 1].id == id ==> all[|all| - 1].updatedAt < all[i].updatedAt
    ensures LatestAt(all, id, i)
  {
    assert forall j :: 0 <= j < |all| - 1 ==> all[..|all| - 1][j] == all[j];
  }

  lemma LatestNow(all: seq<Record>, id: string)
    requires all != [] && all[|all| - 1].id == id
    requires forall r :: r in all[..|all| - 1] && r.id == id ==> r.updatedAt <= all[|all| - 1].updatedAt
    ensures LatestAt(all, id, |all| - 1)
  {
    assert forall j :: 0 <= j < |all| - 1 ==> all[..|all| - 1][j] == all[j] && all[j] in all[..|all| - 1];
  }

  lemma {:induction false} WinnerIsLatest(all: seq<Record>, id: string)
    ensures Winner(all, id).None? <==> forall r :: r in all ==> r.id != id
    ensures Winner(all, id).Some? ==> exists i: nat :: LatestAt(all, id, i) && all[i] == Winner(all, id).value
  {
    if all != [] {
      var n := |all| - 1;
      var front, best := all[..n], Winner(all[..n], id);
      WinnerIsLatest(front, id);
      assert forall r :: r in all <==> r in front || r == all[n];
      if best.Some? {
        var i: nat :| LatestAt(front, id, i) && front[i] == best.value;
        assert front[i] == all[i];
        if all[n].id == id && all[n].updatedAt >= best.value.updatedAt {
          LatestNow(all, id);
        } else {
          LatestSoFar(all, id, i);
        }
      } else if all[n].id == id {
        LatestNow(all, id);
      }
    }
  }

  /** `rs` holds, for each id, the winner among `all`. */
  ghost predicate HoldsWinners(rs: seq<Record>, all: seq<Record>) {
    Unique(rs, RECORD_ID) && forall id :: Find(rs, RECORD_ID, id) == Winner(all, id)
  }

  lemma TakeKeepsWinners(rs: seq<Record>, all: seq<Record>, r: Record)
    requires HoldsWinners(rs, all)
    ensures HoldsWinners(Take(rs, r), all + [r])
  {
    assert (all + [r])[..|all|] == all;
    FindPut(rs, RECORD_ID, r, r.id);
    forall id ensures Find(Take(rs, r), RECORD_ID, id) == Winner(all + [r], id) {
      FindPut(rs, RECORD_ID, r, id);
    }
  }

  lemma {:induction false} TakeAllKeepsWinners(rs: seq<Record>, all: seq<Record>, incoming: seq<Record>)
    requires HoldsWinners(rs, all)
    ensures HoldsWinners(TakeAll(rs, incoming), all + incoming)
  {
    if incoming == [] {
      assert all + incoming == all;
    } else {
      var n := |incoming| - 1;
      TakeAllKeepsWinners(rs, all, incoming[..n]);
      TakeKeepsWinners(TakeAll(rs, incoming[..n]), all + incoming[..n], incoming[n]);
      assert all + incoming == all + incoming[..n] + [incoming[n]];
    }
  }

  function Records(snapshots: seq<Rows>): seq<Record> {
    if snapshots == [] then [] else Records(snapshots[..|snapshots| - 1]) + snapshots[|snapshots| - 1].records
  }

  function MergeAll(snapshots: seq<Rows>): Rows {
    if snapshots == [] then EMPTY
    else Merge(MergeAll(snapshots[..|snapshots| - 1]), snapshots[|snapshots| - 1])
  }

  /** Whatever snapshots are merged, in whatever number, each record id ends with the latest version
      written (the last one of equals), and no id is lost or invented. */
  lemma {:induction false} LastWriterWins(snapshots: seq<Rows>)
    ensures HoldsWinners(MergeAll(snapshots).records, Records(snapshots))
  {
    if snapshots != [] {
      var n := |snapshots| - 1;
      LastWriterWins(snapshots[..n]);
      var sofar := MergeAll(snapshots[..n]).records;
      MapOfUnique(sofar, RECORD_ID);
      TakeAllKeepsWinners(sofar, Records(snapshots[..n]), snapshots[n].records);
      var taken := TakeAll(sofar, snapshots[n].records);
      SortPermutes(taken, RECORD_ORDER);
      FindPermuted(taken, Sort(taken, RECORD_ORDER), RECORD_ID);
    }
  }

  // ---------------------------------------------------------------- nothing stored is dropped

  ghost predicate UniqueEvents(es: seq<Event>) {
    && Unique(es, EVENT_ID)
    && forall i, j :: 0 <= i < j < |es| ==> (es[i].orgId, es[i].sequence) != (es[j].orgId, es[j].sequence)
  }

  ghost predicate UniqueLetters(ds: seq<DeadLetter>) {
    && Unique(ds, LETTER_ID)
    && forall i, j :: 0 <= i < j < |ds| ==> ds[i].workId != ds[j].workId
  }

  lemma AddEventKeeps(es: seq<Event>, sequences: set<(string, int)>, e: Event)
    requires UniqueEvents(es) && sequences <= Sequences(es)
    ensures var added := AddEvent(es, sequences, e);
            && UniqueEvents(added) && es <= added && sequences <= Sequences(added)
            && EventIds(es) <= EventIds(added) && Sequences(es) <= Sequences(added)
            && (e.id in EventIds(added) || (e.orgId, e.sequence) in Sequences(added))
  {
    var added := AddEvent(es, sequences, e);
    if added != es {
      forall i | 0 <= i < |es| ensures es[i].id != e.id && (es[i].orgId, es[i].sequence) != (e.orgId, e.sequence) {
        assert es[i].id in EventIds(es) && (es[i].orgId, es[i].sequence) in Sequences(es);
      }
      assert e in added;
      assert forall f :: f in es ==> f in added;
    }
  }

  lemma {:induction false} AddEventsKeeps(es: seq<Event>, incoming: seq<Event>)
    requires UniqueEvents(es)
    ensures var merged := AddEvents(es, Sequences(es), incoming);
            && UniqueEvents(merged) && es <= merged && Sequences(es) <= Sequences(merged)
            && (forall e :: e in merged ==> e in es || e in incoming)
            && (forall e :: e in incoming ==> e.id in EventIds(merged) || (e.orgId, e.sequence) in Sequences(merged))
  {
    if incoming != [] {
      var n := |incoming| - 1;
      AddEventsKeeps(es, incoming[..n]);
      var before := AddEvents(es, Sequences(es), incoming[..n]);
      AddEventKeeps(before, Sequences(es), incoming[n]);
      AddEventFrom(before, Sequences(es), incoming[n]);
      hide UniqueEvents, AddEvent, EventIds, Sequences;
      assert forall e :: e in incoming <==> e in incoming[..n] || e == incoming[n];
    }
  }

  lemma AddEventFrom(es: seq<Event>, sequences: set<(string, int)>, e: Event)
    ensures forall f :: f in AddEvent(es, sequences, e) ==> f in es || f == e
  {
  }

  lemma AddLetterKeeps(ds: seq<DeadLetter>, workIds: set<string>, d: DeadLetter)
    requires UniqueLetters(ds) && workIds <= WorkIds(ds)
    ensures var added := AddLetter(ds, workIds, d);
            && UniqueLetters(added) && ds <= added && workIds <= WorkIds(added)
            && LetterIds(ds) <= LetterIds(added) && WorkIds(ds) <= WorkIds(added)
            && (d.id in LetterIds(added) || d.workId in WorkIds(added))
  {
    var added := AddLetter(ds, workIds, d);
    if added != ds {
      forall i | 0 <= i < |ds| ensures ds[i].id != d.id && ds[i].workId != d.workId {
        assert ds[i].id in LetterIds(ds) && ds[i].workId in WorkIds(ds);
      }
      assert d in added;
      assert forall f :: f in ds ==> f in added;
    }
  }

  lemma {:induction false} AddLettersKeeps(ds: seq<DeadLetter>, incoming: seq<DeadLetter>)
    requires UniqueLetters(ds)
    ensures var merged := AddLetters(ds, WorkIds(ds), incoming);
            && UniqueLetters(merged) && ds <= merged && WorkIds(ds) <= WorkIds(merged)
            && (forall d :: d in merged ==> d in ds || d in incoming)
            && (forall d :: d in incoming ==> d.id in LetterIds(merged) || d.workId in WorkIds(merged))
  {
    if incoming != [] {
      var n := |incoming| - 1;
      AddLettersKeeps(ds, incoming[..n]);
      var before := AddLetters(ds, WorkIds(ds), incoming[..n]);
      AddLetterKeeps(before, WorkIds(ds), incoming[n]);
      AddLetterFrom(before, WorkIds(ds), incoming[n]);
      hide UniqueLetters, AddLetter, WorkIds, LetterIds;
      assert forall d :: d in incoming <==> d in incoming[..n] || d == incoming[n];
    }
  }

  lemma AddLetterFrom(ds: seq<DeadLetter>, workIds: set<string>, d: DeadLetter)
    ensures forall e :: e in AddLetter(ds, workIds, d) ==> e in ds || e == d
  {
  }

  /** Listing rows in another order keeps every pair of distinct rows apart. */
  lemma UniquePermuted(rows: Rows, sorted: Rows)
    requires UniqueEvents(rows.events) && UniqueLetters(rows.deadLetters)
    requires multiset(rows.events) == multiset(sorted.events)
    requires multiset(rows.deadLetters) == multiset(sorted.deadLetters)
    ensures UniqueEvents(sorted.events) && UniqueLetters(sorted.deadLetters)
  {
    var es, fs, ds, gs := rows.events, sorted.events, rows.deadLetters, sorted.deadLetters;
    UniqueByCount(es, fs, EVENT_ID);
    UniqueByCount(ds, gs, LETTER_ID);
    forall i, j | 0 <= i < j < |fs| ensures (fs[i].orgId, fs[i].sequence) != (fs[j].orgId, fs[j].sequence) {
      assert fs[i] in multiset(es) && fs[j] in multiset(es);
      assert fs[i].id != fs[j].id;
    }
    forall i, j | 0 <= i < j < |gs| ensures gs[i].workId != gs[j].workId {
      assert gs[i] in multiset(ds) && gs[j] in multiset(ds);
      assert gs[i].id != gs[j].id;
    }
  }

  /** The ids the tables and every merge keep apart. */
  ghost predicate UniqueRows(rows: Rows) {
    Unique(rows.records, RECORD_ID) && UniqueLetters(rows.deadLetters) && UniqueEvents(rows.events)
  }

  lemma {:induction false} TakeAllUnique(rs: seq<Record>, incoming: seq<Record>)
    requires Unique(rs, RECORD_ID)
    ensures Unique(TakeAll(rs, incoming), RECORD_ID)
  {
    if incoming != [] {
      TakeAllUnique(rs, incoming[..|incoming| - 1]);
      FindPut(TakeAll(rs, incoming[..|incoming| - 1]), RECORD_ID, incoming[|incoming| - 1], "");
    }
  }

  /** A merge never drops a stored event or dead letter, adds only incoming ones, and keeps record
      ids, event ids, event sequences, dead-letter ids and work ids unique. */
  lemma MergeKeepsStored(existing: Rows, incoming: Rows)
    requires UniqueRows(existing)
    ensures var merged := Merge(existing, incoming);
            && UniqueRows(merged)
            && (forall e :: e in existing.events ==> e in merged.events)
            && (forall d :: d in existing.deadLetters ==> d in merged.deadLetters)
            && (forall e :: e in merged.events ==> e in existing.events || e in incoming.events)
            && (forall d :: d in merged.deadLetters ==> d in existing.deadLetters || d in incoming.deadLetters)
            && (forall e :: e in incoming.events ==>
                  e.id in EventIds(merged.events) || (e.orgId, e.sequence) in Sequences(merged.events))
            && (forall d :: d in incoming.deadLetters ==>
                  d.id in LetterIds(merged.deadLetters) || d.workId in WorkIds(merged.deadLetters))
  {
    MapOfUnique(existing.records, RECORD_ID);
    MapOfUnique(existing.deadLetters, LETTER_ID);
    MapOfUnique(existing.events, EVENT_ID);
    TakeAllUnique(existing.records, incoming.records);
    AddEventsKeeps(existing.events, incoming.events);
    AddLettersKeeps(existing.deadLetters, incoming.deadLetters);
    var taken := TakeAll(existing.records, incoming.records);
    var letters := AddLetters(existing.deadLetters, WorkIds(existing.deadLetters), incoming.deadLetters);
    var events := AddEvents(existing.events, Sequences(existing.events), incoming.events);
    var merged := Merge(existing, incoming);
    SortPermutes(taken, RECORD_ORDER);
    SortPermutes(letters, LETTER_ORDER);
    SortPermutes(events, EVENT_ORDER);
    SortMembers(letters, LETTER_ORDER);
    SortMembers(events, EVENT_ORDER);
    FindPermuted(taken, merged.records, RECORD_ID);
    UniquePermuted(Rows(taken, letters, events), merged);
    assert EventIds(events) == EventIds(merged.events) && Sequences(events) == Sequences(merged.events);
    assert LetterIds(letters) == LetterIds(merged.deadLetters) && WorkIds(letters) == WorkIds(merged.deadLetters);
  }

  // ---------------------------------------------------------------- merging twice

  /** The winner when `best` already stands and `more` is written after it. */
  function WinnerOver(best: Option<Record>, more: seq<Record>, id: string): Option<Record> {
    if more == [] then best
    else
      var sofar, r := WinnerOver(best, more[..|more| - 1], id), more[|more| - 1];
      if r.id == id && (sofar.None? || r.updatedAt >= sofar.value.updatedAt) then Some(r) else sofar
  }

  lemma {:induction false} WinnerOfConcat(all: seq<Record>, more: seq<Record>, id: string)
    ensures Winner(all + more, id) == WinnerOver(Winner(all, id), more, id)
  {
    if more == [] {
      assert all + more == all;
    } else {
      var n := |more| - 1;
      WinnerOfConcat(all, more[..n], id);
      assert (all + more)[..|all| + n] == all + more[..n];
    }
  }

  lemma {:induction false} WinnerOverGrows(best: Option<Record>, more: seq<Record>, id: string)
    ensures best.Some? ==>
              WinnerOver(best, more, id).Some? && WinnerOver(best, more, id).value.updatedAt >= best.value.updatedAt
    ensures forall k :: 0 <= k < |more| && more[k].id == id ==>
              WinnerOver(best, more, id).Some? && WinnerOver(best, more, id).value.updatedAt >= more[k].updatedAt
  {
    if more != [] {
      WinnerOverGrows(best, more[..|more| - 1], id);
    }
  }

  /** Writing a prefix of `more` again: the standing winner stays, or the second pass has caught up
      with the first. */
  lemma {:induction false} SecondPass(best: Option<Record>, more: seq<Record>, k: nat, id: string)
    requires k <= |more|
    ensures var standing := WinnerOver(best, more, id);
            var again := WinnerOver(standing, more[..k], id);
            again == standing || again == WinnerOver(best, more[..k], id)
  {
    if k > 0 {
      var standing := WinnerOver(best, more, id);
      SecondPass(best, more, k - 1, id);
      assert more[..k][..k - 1] == more[..k - 1];
      WinnerOverGrows(best, more, id);
      WinnerOverGrows(standing, more[..k - 1], id);
      FirstPassBelow(best, more, k - 1, id);
    }
  }

  lemma {:induction false} FirstPassBelow(best: Option<Record>, more: seq<Record>, k: nat, id: string)
    requires k <= |more|
    ensures var sofar := WinnerOver(best, more[..k], id);
            sofar.Some? ==>
              WinnerOver(best, more, id).Some? && sofar.value.updatedAt <= WinnerOver(best, more, id).value.updatedAt
    decreases |more|
  {
    if k < |more| {
      assert more[..|more| - 1][..k] == more[..k];
      FirstPassBelow(best, more[..|more| - 1], k, id);
    } else {
      assert more[..k] == more;
    }
  }

  lemma WinnerTwice(all: seq<Record>, more: seq<Record>, id: string)
    ensures Winner(all + more + more, id) == Winner(all + more, id)
  {
    WinnerOfConcat(all, more, id);
    WinnerOfConcat(all + more, more, id);
    SecondPass(Winner(all, id), more, |more|, id);
    assert more[..|more|] == more;
  }

  /** Taking versions of records already listed changes no position. */
  lemma {:induction false} TakeAllInPlace(rs: seq<Record>, incoming: seq<Record>)
    requires Unique(rs, RECORD_ID) && forall r :: r in incoming ==> Find(rs, RECORD_ID, r.id).Some?
    ensures var taken := TakeAll(rs, incoming);
            |taken| == |rs| && forall i :: 0 <= i < |rs| ==> taken[i].id == rs[i].id
  {
    if incoming != [] {
      var n := |incoming| - 1;
      assert incoming == incoming[..n] + [incoming[n]];
      TakeAllInPlace(rs, incoming[..n]);
      var taken := TakeAll(rs, incoming[..n]);
      var k := IndexOfId(rs, RECORD_ID, incoming[n].id);
      assert taken[k].id == incoming[n].id;
    }
  }

  lemma RecordsTwice(existing: seq<Record>, incoming: seq<Record>)
    requires Unique(existing, RECORD_ID)
    ensures var once := Sort(TakeAll(existing, incoming), RECORD_ORDER);
            Sort(TakeAll(once, incoming), RECORD_ORDER) == once
  {
    var taken := TakeAll(existing, incoming);
    var once := Sort(taken, RECORD_ORDER);
    UniqueHoldsItself(existing);
    TakeAllKeepsWinners(existing, existing, incoming);
    SortPermutes(taken, RECORD_ORDER);
    FindPermuted(taken, once, RECORD_ID);
    TakeAllKeepsWinners(once, existing + incoming, incoming);
    forall r | r in incoming ensures Find(once, RECORD_ID, r.id).Some? {
      WinnerIsLatest(existing + incoming, r.id);
      assert r in existing + incoming;
    }
    TakeAllInPlace(once, incoming);
    var twice := TakeAll(once, incoming);
    forall i | 0 <= i < |once| ensures twice[i] == once[i] {
      WinnerTwice(existing, incoming, once[i].id);
      assert IndexOfId(once, RECORD_ID, once[i].id) == i && IndexOfId(twice, RECORD_ID, once[i].id) == i;
      assert Find(twice, RECORD_ID, once[i].id) == Find(once, RECORD_ID, once[i].id);
    }
    assert twice == once;
    SortSorts(taken, RECORD_ORDER);
    SortOfSorted(once, RECORD_ORDER);
  }

  lemma UniqueHoldsItself(rs: seq<Record>)
    requires Unique(rs, RECORD_ID)
    ensures HoldsWinners(rs, rs)
  {
    TakeAllKeepsWinners([], [], rs);
    assert [] + rs == rs;
    TakeAllOfUnique(rs);
  }

  lemma {:induction false} TakeAllOfUnique(rs: seq<Record>)
    requires Unique(rs, RECORD_ID)
    ensures TakeAll([], rs) == rs
  {
    if rs != [] {
      var n := |rs| - 1;
      TakeAllOfUnique(rs[..n]);
      assert IndexOfId(rs[..n], RECORD_ID, rs[n].id) == n;
      assert rs == rs[..n] + [rs[n]];
    }
  }

  lemma {:induction false} KnownEventsAddNothing(es: seq<Event>, incoming: seq<Event>)
    requires forall e :: e in incoming ==> e.id in EventIds(es) || (e.orgId, e.sequence) in Sequences(es)
    ensures AddEvents(es, Sequences(es), incoming) == es
  {
    if incoming != [] {
      assert incoming == incoming[..|incoming| - 1] + [incoming[|incoming| - 1]];
      KnownEventsAddNothing(es, incoming[..|incoming| - 1]);
    }
  }

  lemma {:induction false} KnownLettersAddNothing(ds: seq<DeadLetter>, incoming: seq<DeadLetter>)
    requires forall d :: d in incoming ==> d.id in LetterIds(ds) || d.workId in WorkIds(ds)
    ensures AddLetters(ds, WorkIds(ds), incoming) == ds
  {
    if incoming != [] {
      assert incoming == incoming[..|incoming| - 1] + [incoming[|incoming| - 1]];
      KnownLettersAddNothing(ds, incoming[..|incoming| - 1]);
    }
  }

  /** Merging the same snapshot again changes nothing, not even the order. */
  lemma MergeIsIdempotent(existing: Rows, incoming: Rows)
    requires UniqueRows(existing)
    ensures var once := Merge(existing, incoming); Merge(once, incoming) == once
  {
    var once := Merge(existing, incoming);
    MergeKeepsStored(existing, incoming);
    MapOfUnique(existing.records, RECORD_ID);
    MapOfUnique(once.records, RECORD_ID);
    MapOfUnique(once.deadLetters, LETTER_ID);
    MapOfUnique(once.events, EVENT_ID);
    RecordsTwice(existing.records, incoming.records);
    KnownEventsAddNothing(once.events, incoming.events);
    KnownLettersAddNothing(once.deadLetters, incoming.deadLetters);
    SortSorts(AddEvents(MapOf(existing.events, EVENT_ID), Sequences(existing.events), incoming.events), EVENT_ORDER);
    SortSorts(
      AddLetters(MapOf(existing.deadLetters, LETTER_ID), WorkIds(existing.deadLetters), incoming.deadLetters),
      LETTER_ORDER);
    SortOfSorted(once.events, EVENT_ORDER);
    SortOfSorted(once.deadLetters, LETTER_ORDER);
  }

  // ---------------------------------------------------------------- the database upsert

  /** The three tables, as the database sees them: without order. */
  datatype Tables = Tables(records: map<string, Record>, deadLetters: set<DeadLetter>, events: set<Event>)

  /** `INSERT ... ON CONFLICT (id) DO UPDATE ... WHERE excluded.updated_at >= updated_at`. The update
      set has every column but the id and the organisation. */
  function UpsertRecord(m: map<string, Record>, r: Record): map<string, Record> {
    if r.id !in m then m[r.id := r]
    else if r.updatedAt >= m[r.id].updatedAt then m[r.id := r.(orgId := m[r.id].orgId)]
    else m
  }

  function UpsertRecords(m: map<string, Record>, incoming: seq<Record>): map<string, Record> {
    if incoming == [] then m
    else UpsertRecord(UpsertRecords(m, incoming[..|incoming| - 1]), incoming[|incoming| - 1])
  }

  /** `ON CONFLICT DO NOTHING`: the table is unique by id and by organisation and work id. */
  function InsertLetter(ds: set<DeadLetter>, d: DeadLetter): set<DeadLetter> {
    if exists e :: e in ds && (e.id == d.id || (e.orgId == d.orgId && e.workId == d.workId)) then ds else ds + {d}
  }

  function InsertLetters(ds: set<DeadLetter>, incoming: seq<DeadLetter>): set<DeadLetter> {
    if incoming == [] then ds
    else InsertLetter(InsertLetters(ds, incoming[..|incoming| - 1]), incoming[|incoming| - 1])
  }

  function InsertEvent(es: set<Event>, e: Event): set<Event> {
    if exists f :: f in es && (f.id == e.id || (f.orgId == e.orgId && f.sequence == e.sequence)) then es else es + {e}
  }

  function InsertEvents(es: set<Event>, incoming: seq<Event>): set<Event> {
    if incoming == [] then es
    else InsertEvent(InsertEvents(es, incoming[..|incoming| - 1]), incoming[|incoming| - 1])
  }

  /** The row-by-row writes, as the loop and the two inserts of the repository make them. */
  method UpsertWorkerQueueRows(before: Tables, rows: Rows) returns (tables: Tables)
    ensures tables == Upsert(before, rows)
  {
    var records := before.records;
    for i := 0 to |rows.records|
      invariant records == UpsertRecords(before.records, rows.records[..i])
    {
      assert rows.records[..i + 1][..i] == rows.records[..i];
      records := UpsertRecord(records, rows.records[i]);
    }
    assert rows.records[..|rows.records|] == rows.records;
    tables := Tables(
      records, InsertLetters(before.deadLetters, rows.deadLetters), InsertEvents(before.events, rows.events));
  }

  function Upsert(tables: Tables, rows: Rows): Tables {
    Tables(UpsertRecords(tables.records, rows.records),
           InsertLetters(tables.deadLetters, rows.deadLetters),
           InsertEvents(tables.events, rows.events))
  }

  function Content(rows: Rows): Tables {
    Tables(RecordContent(rows.records), Letters(rows.deadLetters), Events(rows.events))
  }

  function RecordContent(rs: seq<Record>): map<string, Record> {
    map id | id in (set r | r in rs :: r.id) && Find(rs, RECORD_ID, id).Some? :: Find(rs, RECORD_ID, id).value
  }

  ghost predicate SameRecords(m: map<string, Record>, rs: seq<Record>) {
    forall id :: (id in m <==> Find(rs, RECORD_ID, id).Some?) && (id in m ==> Find(rs, RECORD_ID, id) == Some(m[id]))
  }

  lemma ContentMatches(rs: seq<Record>)
    ensures SameRecords(RecordContent(rs), rs)
  {
    forall id ensures id in RecordContent(rs) <==> Find(rs, RECORD_ID, id).Some? {
      var k := IndexOfId(rs, RECORD_ID, id);
      assert k < |rs| ==> rs[k] in rs && rs[k].id in (set r | r in rs :: r.id);
    }
  }

  lemma ContentDetermined(m: map<string, Record>, rs: seq<Record>)
    requires SameRecords(m, rs)
    ensures m == RecordContent(rs)
  {
    ContentMatches(rs);
    forall id ensures id in m <==> id in RecordContent(rs) {
    }
    forall id | id in m ensures m[id] == RecordContent(rs)[id] {
      assert Some(m[id]) == Find(rs, RECORD_ID, id) == Some(RecordContent(rs)[id]);
    }
  }

  // ---------------------------------------------------------------- when upsert and merge agree

  /** The version of a record that was there first. The update set never names the organisation, so
      the table keeps the organisation of this one. */
  function First(all: seq<Record>, id: string): Option<Record> {
    Find(all, RECORD_ID, id)
  }

  lemma FirstSnoc(all: seq<Record>, r: Record, id: string)
    ensures First(all + [r], id) ==
            if First(all, id).Some? then First(all, id) else if r.id == id then Some(r) else None
  {
    var k, l := IndexOfId(all, RECORD_ID, id), IndexOfId(all + [r], RECORD_ID, id);
    if k < |all| {
      assert RECORD_ID((all + [r])[k]) == id;
      assert l == k;
    } else {
      assert forall i :: 0 <= i < |all| ==> RECORD_ID((all + [r])[i]) != id;
      assert l >= |all| && (l == |all| <==> RECORD_ID((all + [r])[|all|]) == id);
    }
  }

  /** The table holds the winner among `all` under the organisation of the first. */
  ghost predicate HoldsUpserted(m: map<string, Record>, all: seq<Record>, id: string) {
    && (id in m <==> Winner(all, id).Some?) && (id in m <==> First(all, id).Some?)
    && (id in m ==> m[id] == Winner(all, id).value.(orgId := First(all, id).value.orgId))
  }

  lemma UpsertKeepsHolding(m: map<string, Record>, all: seq<Record>, r: Record, id: string)
    requires HoldsUpserted(m, all, id)
    ensures HoldsUpserted(UpsertRecord(m, r), all + [r], id)
  {
    hide First;
    assert (all + [r])[..|all|] == all;
    FirstSnoc(all, r, id);
  }

  lemma FirstOfAny(all: seq<Record>, id: string)
    ensures First(all, id).Some? <==> exists r :: r in all && r.id == id
    ensures First(all, id).Some? ==> First(all, id).value in all && First(all, id).value.id == id
  {
    var k := IndexOfId(all, RECORD_ID, id);
    assert k < |all| ==> all[k] in all && RECORD_ID(all[k]) == id;
    if r :| r in all && r.id == id {
      var i :| 0 <= i < |all| && all[i] == r;
      assert RECORD_ID(all[i]) == id;
    }
  }

  lemma {:induction false} UpsertsKeepHolding(
    m: map<string, Record>, all: seq<Record>, incoming: seq<Record>, id: string)
    requires HoldsUpserted(m, all, id)
    ensures HoldsUpserted(UpsertRecords(m, incoming), all + incoming, id)
  {
    hide HoldsUpserted;
    if incoming == [] {
      assert all + incoming == all;
    } else {
      var n := |incoming| - 1;
      UpsertsKeepHolding(m, all, incoming[..n], id);
      UpsertKeepsHolding(UpsertRecords(m, incoming[..n]), all + incoming[..n], incoming[n], id);
      assert all + incoming == all + incoming[..n] + [incoming[n]];
    }
  }

  lemma UpsertedHolds(rs: seq<Record>, incoming: seq<Record>, id: string)
    requires Unique(rs, RECORD_ID)
    ensures HoldsUpserted(UpsertRecords(RecordContent(rs), incoming), rs + incoming, id)
  {
    ContentMatches(rs);
    UniqueHoldsItself(rs);
    assert First(rs, id) == Winner(rs, id);
    UpsertsKeepHolding(RecordContent(rs), rs, incoming, id);
  }

  /** The winner belongs to the organisation of the first version. */
  ghost predicate StaysHome(all: seq<Record>, id: string) {
    Winner(all, id).Some? ==> First(all, id).Some? && Winner(all, id).value.orgId == First(all, id).value.orgId
  }

  ghost predicate WinnersStayHome(all: seq<Record>) {
    forall id :: StaysHome(all, id)
  }

  lemma RecordAgrees(rs: seq<Record>, incoming: seq<Record>, id: string)
    requires Unique(rs, RECORD_ID)
    ensures var table, merged := UpsertRecords(RecordContent(rs), incoming), RecordContent(TakeAll(rs, incoming));
            && (id in table <==> id in merged)
            && (id in table ==> (table[id] == merged[id] <==> StaysHome(rs + incoming, id)))
            && (id !in table ==> StaysHome(rs + incoming, id))
  {
    UpsertedHolds(rs, incoming, id);
    UniqueHoldsItself(rs);
    TakeAllKeepsWinners(rs, rs, incoming);
    ContentMatches(TakeAll(rs, incoming));
    var all := rs + incoming;
    assert Find(TakeAll(rs, incoming), RECORD_ID, id) == Winner(all, id);
    hide RecordContent, UpsertRecords, TakeAll, First, Find, Winner, Unique;
    if Winner(all, id).Some? && StaysHome(all, id) {
      var w := Winner(all, id).value;
      assert w.(orgId := w.orgId) == w;
    }
  }

  lemma RecordsAgreeExactly(rs: seq<Record>, incoming: seq<Record>)
    requires Unique(rs, RECORD_ID)
    ensures UpsertRecords(RecordContent(rs), incoming) == RecordContent(TakeAll(rs, incoming)) <==>
            WinnersStayHome(rs + incoming)
  {
    hide TakeAll, UpsertRecords, RecordContent, StaysHome;
    var table, merged := UpsertRecords(RecordContent(rs), incoming), RecordContent(TakeAll(rs, incoming));
    forall id ensures && (id in table <==> id in merged)
                      && (id in table ==> (table[id] == merged[id] <==> StaysHome(rs + incoming, id)))
                      && (id !in table ==> StaysHome(rs + incoming, id))
    {
      RecordAgrees(rs, incoming, id);
    }
    assert WinnersStayHome(rs + incoming) ==> table == merged;
  }

  /** Work whose letter stands under other organisations only: the merge tells letters of the same
      work id apart by nothing else, the table by the organisation as well. */
  ghost predicate MeetsForeignLetter(ds: seq<DeadLetter>, d: DeadLetter) {
    d.id !in LetterIds(ds) && d.workId in WorkIds(ds) &&
    forall e :: e in ds && e.workId == d.workId ==> e.orgId != d.orgId
  }

  /** No incoming letter meets, when its turn comes, the letter of another organisation. */
  ghost predicate NoForeignLetterMet(ds: seq<DeadLetter>, incoming: seq<DeadLetter>) {
    incoming == [] ||
    (var n := |incoming| - 1;
     NoForeignLetterMet(ds, incoming[..n]) &&
     !MeetsForeignLetter(AddLetters(ds, WorkIds(ds), incoming[..n]), incoming[n]))
  }

  function Letters(ds: seq<DeadLetter>): set<DeadLetter> {
    set d | d in ds
  }

  lemma {:induction false} AddLettersGrows(ds: seq<DeadLetter>, incoming: seq<DeadLetter>)
    ensures ds <= AddLetters(ds, WorkIds(ds), incoming)
    ensures WorkIds(ds) <= WorkIds(AddLetters(ds, WorkIds(ds), incoming))
  {
    if incoming != [] {
      AddLettersGrows(ds, incoming[..|incoming| - 1]);
    }
    assert forall d :: d in ds ==> d in AddLetters(ds, WorkIds(ds), incoming);
  }

  lemma InsertLetterAdds(ds: seq<DeadLetter>, workIds: set<string>, d: DeadLetter)
    requires workIds <= WorkIds(ds) && !MeetsForeignLetter(ds, d)
    ensures InsertLetter(Letters(ds), d) == Letters(AddLetter(ds, workIds, d))
  {
    assert d.id in LetterIds(ds) <==> exists e :: e in ds && e.id == d.id;
    assert d.id !in LetterIds(ds) && d.workId in WorkIds(ds) ==>
        exists e :: e in ds && e.orgId == d.orgId && e.workId == d.workId;
    assert (exists e :: e in ds && e.orgId == d.orgId && e.workId == d.workId) ==> d.workId in WorkIds(ds);
  }

  /** The table takes the letter that meets a foreign one. */
  lemma MetLetterInserted(ds: seq<DeadLetter>, d: DeadLetter)
    requires MeetsForeignLetter(ds, d)
    ensures d in InsertLetter(Letters(ds), d)
  {
    assert forall e :: e in ds ==> e.id in LetterIds(ds);
  }

  /** The merge never will: its work id stands. */
  lemma {:induction false} MetLetterNeverAdded(ds: seq<DeadLetter>, incoming: seq<DeadLetter>, k: nat, d: DeadLetter)
    requires k <= |incoming| && MeetsForeignLetter(AddLetters(ds, WorkIds(ds), incoming[..k]), d)
    ensures d !in AddLetters(ds, WorkIds(ds), incoming) && d.workId in WorkIds(AddLetters(ds, WorkIds(ds), incoming))
    decreases |incoming|
  {
    var n := |incoming| - 1;
    if k == |incoming| {
      assert incoming[..k] == incoming;
      assert d in AddLetters(ds, WorkIds(ds), incoming) ==> d.id in LetterIds(AddLetters(ds, WorkIds(ds), incoming));
    } else {
      assert incoming[..n][..k] == incoming[..k];
      MetLetterNeverAdded(ds, incoming[..n], k, d);
      var before := AddLetters(ds, WorkIds(ds), incoming[..n]);
      assert forall e :: e in before ==> e in AddLetter(before, WorkIds(ds), incoming[n]);
    }
  }

  lemma {:induction false} InsertedLettersStay(es: set<DeadLetter>, incoming: seq<DeadLetter>, k: nat)
    requires k <= |incoming|
    ensures InsertLetters(es, incoming[..k]) <= InsertLetters(es, incoming)
    decreases |incoming|
  {
    var n := |incoming| - 1;
    if k == |incoming| {
      assert incoming[..k] == incoming;
    } else {
      assert incoming[..n][..k] == incoming[..k];
      InsertedLettersStay(es, incoming[..n], k);
    }
  }

  lemma {:induction false} UnmetLettersAgree(ds: seq<DeadLetter>, incoming: seq<DeadLetter>)
    requires NoForeignLetterMet(ds, incoming)
    ensures InsertLetters(Letters(ds), incoming) == Letters(AddLetters(ds, WorkIds(ds), incoming))
  {
    if incoming != [] {
      var n := |incoming| - 1;
      UnmetLettersAgree(ds, incoming[..n]);
      AddLettersGrows(ds, incoming[..n]);
      InsertLetterAdds(AddLetters(ds, WorkIds(ds), incoming[..n]), WorkIds(ds), incoming[n]);
    }
  }

  /** The first letter that meets a foreign one. */
  lemma {:induction false} FirstMeeting(ds: seq<DeadLetter>, incoming: seq<DeadLetter>) returns (k: nat)
    requires !NoForeignLetterMet(ds, incoming)
    ensures k < |incoming| && NoForeignLetterMet(ds, incoming[..k])
    ensures MeetsForeignLetter(AddLetters(ds, WorkIds(ds), incoming[..k]), incoming[k])
  {
    k := |incoming| - 1;
    if !NoForeignLetterMet(ds, incoming[..k]) {
      var n := k;
      k := FirstMeeting(ds, incoming[..n]);
      assert incoming[..n][..k] == incoming[..k];
    }
  }

  lemma LettersAgreeExactly(ds: seq<DeadLetter>, incoming: seq<DeadLetter>)
    ensures InsertLetters(Letters(ds), incoming) == Letters(AddLetters(ds, WorkIds(ds), incoming)) <==>
            NoForeignLetterMet(ds, incoming)
  {
    if NoForeignLetterMet(ds, incoming) {
      UnmetLettersAgree(ds, incoming);
    } else {
      var k := FirstMeeting(ds, incoming);
      UnmetLettersAgree(ds, incoming[..k]);
      MetLetterInserted(AddLetters(ds, WorkIds(ds), incoming[..k]), incoming[k]);
      assert incoming[..k + 1][..k] == incoming[..k];
      assert incoming[k] in InsertLetters(Letters(ds), incoming[..k + 1]);
      InsertedLettersStay(Letters(ds), incoming, k + 1);
      MetLetterNeverAdded(ds, incoming, k, incoming[k]);
    }
  }

  function Events(es: seq<Event>): set<Event> {
    set e | e in es
  }

  lemma {:induction false} AddEventsGrows(es: seq<Event>, incoming: seq<Event>)
    ensures es <= AddEvents(es, Sequences(es), incoming)
    ensures Sequences(es) <= Sequences(AddEvents(es, Sequences(es), incoming))
  {
    if incoming != [] {
      AddEventsGrows(es, incoming[..|incoming| - 1]);
    }
    assert forall e :: e in es ==> e in AddEvents(es, Sequences(es), incoming);
  }

  lemma InsertEventAdds(es: seq<Event>, sequences: set<(string, int)>, e: Event)
    requires sequences <= Sequences(es)
    ensures InsertEvent(Events(es), e) == Events(AddEvent(es, sequences, e))
  {
    assert e.id in EventIds(es) <==> exists f :: f in es && f.id == e.id;
    assert (e.orgId, e.sequence) in Sequences(es) <==>
           exists f :: f in es && f.orgId == e.orgId && f.sequence == e.sequence;
  }

  /** Of events the two always agree. */
  lemma {:induction false} EventsAgree(es: seq<Event>, incoming: seq<Event>)
    ensures InsertEvents(Events(es), incoming) == Events(AddEvents(es, Sequences(es), incoming))
  {
    if incoming != [] {
      var n := |incoming| - 1;
      EventsAgree(es, incoming[..n]);
      AddEventsGrows(es, incoming[..n]);
      InsertEventAdds(AddEvents(es, Sequences(es), incoming[..n]), Sequences(es), incoming[n]);
    }
  }

  /** The primary keys of the three tables. */
  ghost predicate UniqueIds(rows: Rows) {
    Unique(rows.records, RECORD_ID) && Unique(rows.deadLetters, LETTER_ID) && Unique(rows.events, EVENT_ID)
  }

  /** Writing a snapshot row by row leaves what merging it would exactly when every record's winner
      belongs to the organisation of its first version, and no incoming letter meets the letter of
      another organisation for the same work id. */
  lemma UpsertAgreesExactly(existing: Rows, incoming: Rows)
    requires UniqueIds(existing)
    ensures Upsert(Content(existing), incoming) == Content(Merge(existing, incoming)) <==>
            WinnersStayHome(existing.records + incoming.records) &&
            NoForeignLetterMet(existing.deadLetters, incoming.deadLetters)
  {
    MergedContent(existing, incoming);
    RecordsAgreeExactly(existing.records, incoming.records);
    LettersAgreeExactly(existing.deadLetters, incoming.deadLetters);
    EventsAgree(existing.events, incoming.events);
  }

  /** What a merge holds, its order aside. */
  lemma MergedContent(existing: Rows, incoming: Rows)
    requires UniqueIds(existing)
    ensures Content(Merge(existing, incoming)) ==
            Tables(
              RecordContent(TakeAll(existing.records, incoming.records)),
              Letters(AddLetters(existing.deadLetters, WorkIds(existing.deadLetters), incoming.deadLetters)),
              Events(AddEvents(existing.events, Sequences(existing.events), incoming.events)))
  {
    MapOfUnique(existing.records, RECORD_ID);
    MapOfUnique(existing.deadLetters, LETTER_ID);
    MapOfUnique(existing.events, EVENT_ID);
    var taken, merged := TakeAll(existing.records, incoming.records), Merge(existing, incoming);
    TakeAllUnique(existing.records, incoming.records);
    SortPermutes(taken, RECORD_ORDER);
    FindPermuted(taken, merged.records, RECORD_ID);
    ContentMatches(taken);
    ContentDetermined(RecordContent(taken), merged.records);
    SortMembers(AddEvents(existing.events, Sequences(existing.events), incoming.events), EVENT_ORDER);
    SortMembers(AddLetters(existing.deadLetters, WorkIds(existing.deadLetters), incoming.deadLetters), LETTER_ORDER);
  }

  // ---------------------------------------------------------------- snapshots of organisations

  /** `workerSnapshotToRows`: an organisation's snapshot under its storage ids. */
  function WorkerSnapshotToRows(orgId: string, snapshot: Rows): Rows {
    Rows(Map(snapshot.records, (r: Record) => r.(id := StorageId(orgId, r.id), orgId := orgId)),
         Map(snapshot.deadLetters, (d: DeadLetter) =>
           d.(id := StorageId(orgId, d.id), orgId := orgId, workId := StorageId(orgId, d.workId))),
         Map(snapshot.events, (e: Event) => e.(id := StorageId(orgId, e.id), orgId := orgId)))
  }

  /** An id as an organisation without a colon stores it. */
  ghost predicate StoredFor(orgId: string, id: string) {
    ':' !in orgId && StorageId(orgId, id) == id
  }

  ghost predicate StoredRecords(rs: seq<Record>) {
    forall r :: r in rs ==> StoredFor(r.orgId, r.id)
  }

  ghost predicate StoredLetters(ds: seq<DeadLetter>) {
    forall d :: d in ds ==> StoredFor(d.orgId, d.workId)
  }

  lemma SnapshotRowsAreStored(orgId: string, snapshot: Rows)
    requires ':' !in orgId
    ensures var rows := WorkerSnapshotToRows(orgId, snapshot);
            StoredRecords(rows.records) && StoredLetters(rows.deadLetters)
  {
    var rows := WorkerSnapshotToRows(orgId, snapshot);
    forall r | r in rows.records ensures StoredFor(r.orgId, r.id) {
      var i :| 0 <= i < |snapshot.records| && rows.records[i] == r;
      StorageIdStarts(orgId, snapshot.records[i].id);
    }
    forall d | d in rows.deadLetters ensures StoredFor(d.orgId, d.workId) {
      var i :| 0 <= i < |snapshot.deadLetters| && rows.deadLetters[i] == d;
      StorageIdStarts(orgId, snapshot.deadLetters[i].workId);
    }
  }

  lemma StoredWinnersStayHome(all: seq<Record>)
    requires StoredRecords(all)
    ensures WinnersStayHome(all)
  {
    hide StorageId, StoredFor, First, Winner;
    forall id | Winner(all, id).Some? ensures StaysHome(all, id) {
      WinnerIsLatest(all, id);
      FirstOfAny(all, id);
      var i: nat :| LatestAt(all, id, i) && all[i] == Winner(all, id).value;
      assert all[i] in all;
      StoredForOneOrg(Winner(all, id).value.orgId, First(all, id).value.orgId, id);
    }
  }

  lemma StoredForOneOrg(a: string, b: string, id: string)
    requires StoredFor(a, id) && StoredFor(b, id)
    ensures a == b
  {
    StorageIdNamesOrg(a, b, id, id);
  }

  lemma {:induction false} StoredLettersMeetNone(ds: seq<DeadLetter>, incoming: seq<DeadLetter>)
    requires StoredLetters(ds) && StoredLetters(incoming)
    ensures NoForeignLetterMet(ds, incoming)
    ensures StoredLetters(AddLetters(ds, WorkIds(ds), incoming))
  {
    hide StoredFor;
    if incoming != [] {
      var n, d := |incoming| - 1, incoming[|incoming| - 1];
      assert incoming == incoming[..n] + [d];
      StoredLettersMeetNone(ds, incoming[..n]);
      var before := AddLetters(ds, WorkIds(ds), incoming[..n]);
      if d.workId in WorkIds(before) {
        var e :| e in before && e.workId == d.workId;
        StoredForOneOrg(e.orgId, d.orgId, d.workId);
      }
    }
  }

  /** So writing an organisation's snapshot row by row leaves exactly what merging it would, in tables
      that hold the storage ids of any number of organisations without a colon in their ids. */
  lemma SnapshotUpsertIsMerge(existing: Rows, orgId: string, snapshot: Rows)
    requires UniqueIds(existing) && StoredRecords(existing.records) && StoredLetters(existing.deadLetters)
    requires ':' !in orgId
    ensures var incoming := WorkerSnapshotToRows(orgId, snapshot);
            Upsert(Content(existing), incoming) == Content(Merge(existing, incoming))
  {
    var incoming := WorkerSnapshotToRows(orgId, snapshot);
    SnapshotRowsAreStored(orgId, snapshot);
    StoredWinnersStayHome(existing.records + incoming.records);
    StoredLettersMeetNone(existing.deadLetters, incoming.deadLetters);
    UpsertAgreesExactly(existing, incoming);
  }

  // ---------------------------------------------------------------- when they do not

  /** No record at all, and the two still differ: the letters are of one work id. */
  lemma ForeignLettersDiffer()
    ensures var existing := Rows([], [DeadLetter("1", "A", "w", 1, "")], []);
            var incoming := Rows([], [DeadLetter("2", "B", "w", 1, "")], []);
            UniqueIds(existing) && Upsert(Content(existing), incoming) != Content(Merge(existing, incoming))
  {
    var d, e := DeadLetter("1", "A", "w", 1, ""), DeadLetter("2", "B", "w", 1, "");
    assert [e][..0] == [] && AddLetters([d], WorkIds([d]), []) == [d];
    assert d in [d];
    assert MeetsForeignLetter([d], e);
    assert !NoForeignLetterMet([d], [e]);
    UpsertAgreesExactly(Rows([], [d], []), Rows([], [e], []));
  }

  /** A record of another organisation is overwritten, and the two agree: it is overwritten back. */
  lemma OverwrittenBackAgrees(payload: string)
    ensures var existing := Rows([Record("i", "A", 1, 1, payload)], [], []);
            var incoming := Rows([Record("i", "B", 1, 2, payload), Record("i", "A", 1, 3, payload)], [], []);
            Upsert(Content(existing), incoming) == Content(Merge(existing, incoming))
  {
    var a, b, c := Record("i", "A", 1, 1, payload), Record("i", "B", 1, 2, payload), Record("i", "A", 1, 3, payload);
    var all := [a] + [b, c];
    assert all[..2] == [a, b] && [a, b][..1] == [a] && [a][..0] == [];
    forall id | Winner(all, id).Some? ensures StaysHome(all, id) {
      assert Winner([a], id) == if id == "i" then Some(a) else None;
      assert Winner([a, b], id) == if id == "i" then Some(b) else None;
      assert Winner(all, id) == if id == "i" then Some(c) else None;
      assert RECORD_ID(all[0]) == "i";
    }
    UpsertAgreesExactly(Rows([a], [], []), Rows([b, c], [], []));
  }
}
