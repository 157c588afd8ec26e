/** Access bundles flattened to database rows and regrouped from them. Whatever order the database
    returns the rows in, the policy verdict is the one of the original bundles. */
module AccessRows {
  import opened Wrappers
  import opened Policy

  datatype BundleRow = BundleRow(id: string, orgId: string, name: string, description: string, budgetPolicyId: string)
  datatype PlaceRow = PlaceRow(orgId: string, accessBundleId: string, placeId: string)
  datatype GrantRow = GrantRow(
    id: string, orgId: string, accessBundleId: string, capability: Capability, resource: string,
    decision: Decision, risk: Risk, requiresApproval: bool)

  datatype Rows = Rows(bundles: seq<BundleRow>, places: seq<PlaceRow>, grants: seq<GrantRow>)

  // ---------------------------------------------------------------- flattening

  function ToBundleRow(b: Bundle): BundleRow {
    BundleRow(b.id, b.orgId, b.name, b.description, b.budgetPolicyId)
  }

  function ToGrantRow(b: Bundle, g: Grant): GrantRow {
    GrantRow(g.id, b.orgId, b.id, g.capability, g.resource, g.decision, g.risk, g.requiresApproval)
  }

  function BundleRows(bundles: seq<Bundle>): (rows: seq<BundleRow>)
    ensures |rows| == |bundles| && forall i :: 0 <= i < |bundles| ==> rows[i] == ToBundleRow(bundles[i])
  {
    seq(|bundles|, i requires 0 <= i < |bundles| => ToBundleRow(bundles[i]))
  }

  function PlaceRows(bundles: seq<Bundle>): seq<PlaceRow> {
    if bundles == [] then [] else PlaceRowsOf(bundles[0], bundles[0].attachedPlaceIds) + PlaceRows(bundles[1..])
  }

  function PlaceRowsOf(b: Bundle, placeIds: seq<string>): seq<PlaceRow> {
    if placeIds == [] then [] else [PlaceRow(b.orgId, b.id, placeIds[0])] + PlaceRowsOf(b, placeIds[1..])
  }

  function GrantRows(bundles: seq<Bundle>): seq<GrantRow> {
    if bundles == [] then [] else GrantRowsOf(bundles[0], bundles[0].grants) + GrantRows(bundles[1..])
  }

  function GrantRowsOf(b: Bundle, grants: seq<Grant>): seq<GrantRow> {
    if grants == [] then [] else [ToGrantRow(b, grants[0])] + GrantRowsOf(b, grants[1..])
  }

  function ToRows(bundles: seq<Bundle>): Rows {
    Rows(BundleRows(bundles), PlaceRows(bundles), GrantRows(bundles))
  }

  // ---------------------------------------------------------------- regrouping

  function FromGrantRow(row: GrantRow): Grant {
    Grant(row.id, row.capability, row.resource, row.decision, row.risk, row.requiresApproval)
  }

  function PlacesIn(rows: seq<PlaceRow>, bundleId: string): seq<string> {
    if rows == [] then []
    else (if rows[0].accessBundleId == bundleId then [rows[0].placeId] else []) + PlacesIn(rows[1..], bundleId)
  }

  function GrantsIn(rows: seq<GrantRow>, bundleId: string): seq<Grant> {
    if rows == [] then []
    else (if rows[0].accessBundleId == bundleId then [FromGrantRow(rows[0])] else []) + GrantsIn(rows[1..], bundleId)
  }

  function Regroup(row: BundleRow, rows: Rows): Bundle {
    Bundle(row.id, row.orgId, row.name, row.description,
           PlacesIn(rows.places, row.id), GrantsIn(rows.grants, row.id), row.budgetPolicyId)
  }

  function RegroupAll(bundleRows: seq<BundleRow>, rows: Rows): seq<Bundle> {
    if bundleRows == [] then [] else [Regroup(bundleRows[0], rows)] + RegroupAll(bundleRows[1..], rows)
  }

  function FromRows(rows: Rows): seq<Bundle> {
    RegroupAll(rows.bundles, rows)
  }

  lemma {:induction false} PlacesInLast(rows: seq<PlaceRow>, row: PlaceRow, bundleId: string)
    ensures PlacesIn(rows + [row], bundleId) ==
            if row.accessBundleId == bundleId then PlacesIn(rows, bundleId) + [row.placeId]
            else PlacesIn(rows, bundleId)
  {
    if rows == [] {
      assert rows + [row] == [row] && [row][1..] == [];
    } else {
      assert (rows + [row])[1..] == rows[1..] + [row];
      PlacesInLast(rows[1..], row, bundleId);
    }
  }

  lemma {:induction false} GrantsInLast(rows: seq<GrantRow>, row: GrantRow, bundleId: string)
    ensures GrantsIn(rows + [row], bundleId) ==
            if row.accessBundleId == bundleId then GrantsIn(rows, bundleId) + [FromGrantRow(row)]
            else GrantsIn(rows, bundleId)
  {
    if rows == [] {
      assert rows + [row] == [row] && [row][1..] == [];
    } else {
      assert (rows + [row])[1..] == rows[1..] + [row];
      GrantsInLast(rows[1..], row, bundleId);
    }
  }

  /** `map.get(key) ?? []`. */
  function GetOrEmpty<T>(m: map<string, seq<T>>, key: string): seq<T> {
    if key in m then m[key] else []
  }

  ghost predicate GroupsPlaces(m: map<string, seq<string>>, rows: seq<PlaceRow>) {
    forall id :: GetOrEmpty(m, id) == PlacesIn(rows, id)
  }

  ghost predicate GroupsGrants(m: map<string, seq<Grant>>, rows: seq<GrantRow>) {
    forall id :: GetOrEmpty(m, id) == GrantsIn(rows, id)
  }

  lemma GroupPlace(m: map<string, seq<string>>, rows: seq<PlaceRow>, i: nat)
    requires i < |rows| && GroupsPlaces(m, rows[..i])
    ensures var id := rows[i].accessBundleId;
            GroupsPlaces(m[id := GetOrEmpty(m, id) + [rows[i].placeId]], rows[..i + 1])
  {
    assert rows[..i + 1] == rows[..i] + [rows[i]];
    var m' := m[rows[i].accessBundleId := GetOrEmpty(m, rows[i].accessBundleId) + [rows[i].placeId]];
    forall id ensures GetOrEmpty(m', id) == PlacesIn(rows[..i + 1], id) {
      assert GetOrEmpty(m, id) == PlacesIn(rows[..i], id);
      PlacesInLast(rows[..i], rows[i], id);
    }
  }

  lemma GroupGrant(m: map<string, seq<Grant>>, rows: seq<GrantRow>, i: nat)
    requires i < |rows| && GroupsGrants(m, rows[..i])
    ensures var id := rows[i].accessBundleId;
            GroupsGrants(m[id := GetOrEmpty(m, id) + [FromGrantRow(rows[i])]], rows[..i + 1])
  {
    assert rows[..i + 1] == rows[..i] + [rows[i]];
    var m' := m[rows[i].accessBundleId := GetOrEmpty(m, rows[i].accessBundleId) + [FromGrantRow(rows[i])]];
    forall id ensures GetOrEmpty(m', id) == GrantsIn(rows[..i + 1], id) {
      assert GetOrEmpty(m, id) == GrantsIn(rows[..i], id);
      GrantsInLast(rows[..i], rows[i], id);
    }
  }

  method GroupPlaceRows(rows: seq<PlaceRow>) returns (placesByBundle: map<string, seq<string>>)
    ensures GroupsPlaces(placesByBundle, rows)
  {
    placesByBundle := map[];
    for i := 0 to |rows|
      invariant GroupsPlaces(placesByBundle, rows[..i])
    {
      GroupPlace(placesByBundle, rows, i);
      var placeIds := GetOrEmpty(placesByBundle, rows[i].accessBundleId);
      placesByBundle := placesByBundle[rows[i].accessBundleId := placeIds + [rows[i].placeId]];
    }
    assert rows[..|rows|] == rows;
  }

  method GroupGrantRows(rows: seq<GrantRow>) returns (grantsByBundle: map<string, seq<Grant>>)
    ensures GroupsGrants(grantsByBundle, rows)
  {
    grantsByBundle := map[];
    for i := 0 to |rows|
      invariant GroupsGrants(grantsByBundle, rows[..i])
    {
      GroupGrant(grantsByBundle, rows, i);
      var bundleGrants := GetOrEmpty(grantsByBundle, rows[i].accessBundleId);
      grantsByBundle := grantsByBundle[rows[i].accessBundleId := bundleGrants + [FromGrantRow(rows[i])]];
    }
    assert rows[..|rows|] == rows;
  }

  /** The loops of the repository compute the regrouping. */
  method AccessBundlesFromRows(rows: Rows) returns (bundles: seq<Bundle>)
    ensures bundles == FromRows(rows)
  {
    var placesByBundle := GroupPlaceRows(rows.places);
    var grantsByBundle := GroupGrantRows(rows.grants);
    bundles := [];
    for i := 0 to |rows.bundles|
      invariant bundles == RegroupAll(rows.bundles[..i], rows)
    {
      var row := rows.bundles[i];
      RegroupAllLast(rows.bundles[..i], row, rows);
      assert rows.bundles[..i + 1] == rows.bundles[..i] + [row];
      bundles := bundles + [Bundle(
        row.id, row.orgId, row.name, row.description,
        GetOrEmpty(placesByBundle, row.id), GetOrEmpty(grantsByBundle, row.id), row.budgetPolicyId)];
    }
    assert rows.bundles[..|rows.bundles|] == rows.bundles;
  }

  lemma {:induction false} RegroupAllLast(bundleRows: seq<BundleRow>, row: BundleRow, rows: Rows)
    ensures RegroupAll(bundleRows + [row], rows) == RegroupAll(bundleRows, rows) + [Regroup(row, rows)]
  {
    if bundleRows == [] {
      assert bundleRows + [row] == [row] && [row][1..] == [];
    } else {
      assert (bundleRows + [row])[1..] == bundleRows[1..] + [row];
      RegroupAllLast(bundleRows[1..], row, rows);
    }
  }

  // ---------------------------------------------------------------- the round trip

  /** Bundle ids are the primary key of their table. */
  ghost predicate DistinctIds(bundles: seq<Bundle>) {
    forall i, j :: 0 <= i < j < |bundles| ==> bundles[i].id != bundles[j].id
  }

  lemma {:induction false} OwnRows(bundles: seq<Bundle>, id: string)
    requires DistinctIds(bundles)
    ensures forall b :: b in bundles && b.id == id ==>
              PlacesIn(PlaceRows(bundles), id) == b.attachedPlaceIds && GrantsIn(GrantRows(bundles), id) == b.grants
    ensures (forall b :: b in bundles ==> b.id != id) ==>
              PlacesIn(PlaceRows(bundles), id) == [] && GrantsIn(GrantRows(bundles), id) == []
  {
    if bundles != [] {
      var b := bundles[0];
      OwnRows(bundles[1..], id);
      PlacesInPrefix(b, b.attachedPlaceIds, PlaceRows(bundles[1..]), id);
      GrantsInPrefix(b, b.grants, GrantRows(bundles[1..]), id);
      assert forall c :: c in bundles[1..] ==> c.id != b.id;
      assert forall c :: c in bundles <==> c == b || c in bundles[1..];
    }
  }

  lemma {:induction false} PlacesInPrefix(b: Bundle, placeIds: seq<string>, rest: seq<PlaceRow>, id: string)
    ensures PlacesIn(PlaceRowsOf(b, placeIds) + rest, id) == (if b.id == id then placeIds else []) + PlacesIn(rest, id)
  {
    if placeIds == [] {
      assert PlaceRowsOf(b, placeIds) + rest == rest;
    } else {
      PlacesInPrefix(b, placeIds[1..], rest, id);
      assert (PlaceRowsOf(b, placeIds) + rest)[1..] == PlaceRowsOf(b, placeIds[1..]) + rest;
    }
  }

  lemma {:induction false} GrantsInPrefix(b: Bundle, grants: seq<Grant>, rest: seq<GrantRow>, id: string)
    ensures GrantsIn(GrantRowsOf(b, grants) + rest, id) == (if b.id == id then grants else []) + GrantsIn(rest, id)
  {
    if grants == [] {
      assert GrantRowsOf(b, grants) + rest == rest;
    } else {
      GrantsInPrefix(b, grants[1..], rest, id);
      assert (GrantRowsOf(b, grants) + rest)[1..] == GrantRowsOf(b, grants[1..]) + rest;
    }
  }

  lemma {:induction false} RegroupEach(bundleRows: seq<BundleRow>, rows: Rows)
    ensures |RegroupAll(bundleRows, rows)| == |bundleRows|
    ensures forall i :: 0 <= i < |bundleRows| ==> RegroupAll(bundleRows, rows)[i] == Regroup(bundleRows[i], rows)
  {
    if bundleRows != [] {
      RegroupEach(bundleRows[1..], rows);
    }
  }

  /** Rows read back in the order they were written give back the very same bundles. */
  lemma RowsRoundTrip(bundles: seq<Bundle>)
    requires DistinctIds(bundles)
    ensures FromRows(ToRows(bundles)) == bundles
  {
    var rows := ToRows(bundles);
    RegroupEach(rows.bundles, rows);
    forall i | 0 <= i < |bundles| ensures FromRows(rows)[i] == bundles[i] {
      OwnRows(bundles, bundles[i].id);
    }
  }

  // ---------------------------------------------------------------- rows in any order

  ghost predicate Shuffled(rows: Rows, original: Rows) {
    && multiset(rows.bundles) == multiset(original.bundles)
    && multiset(rows.places) == multiset(original.places)
    && multiset(rows.grants) == multiset(original.grants)
  }

  /** The sum of a weight over a list, which does not depend on the list's order. */
  ghost function Total<A, B>(s: seq<A>, w: A -> multiset<B>): multiset<B> {
    if s == [] then multiset{} else w(s[0]) + Total(s[1..], w)
  }

  lemma {:induction false} TotalWithout<A, B>(s: seq<A>, i: nat, w: A -> multiset<B>)
    requires i < |s|
    ensures Total(s, w) == w(s[i]) + Total(s[..i] + s[i + 1..], w)
  {
    if i == 0 {
      assert s[..i] + s[i + 1..] == s[1..];
    } else {
      TotalWithout(s[1..], i - 1, w);
      assert (s[..i] + s[i + 1..])[1..] == s[1..][..i - 1] + s[1..][i..];
    }
  }

  lemma RemoveAt<A>(s: seq<A>, i: nat)
    requires i < |s|
    ensures multiset(s) == multiset{s[i]} + multiset(s[..i] + s[i + 1..])
  {
    assert s == s[..i] + [s[i]] + s[i + 1..];
  }

  lemma {:induction false} TotalPermutes<A, B>(s: seq<A>, t: seq<A>, w: A -> multiset<B>)
    requires multiset(s) == multiset(t)
    ensures Total(s, w) == Total(t, w)
  {
    if s == [] {
      assert |multiset(t)| == 0;
    } else {
      assert s[0] in multiset(t);
      var i :| 0 <= i < |t| && t[i] == s[0];
      var t' := t[..i] + t[i + 1..];
      TotalWithout(t, i, w);
      RemoveAt(s, 0);
      RemoveAt(t, i);
      assert s[..0] + s[0 + 1..] == s[1..];
      assert multiset(s) - multiset{s[0]} == multiset(s[1..]);
      assert multiset(t) - multiset{t[i]} == multiset(t');
      TotalPermutes(s[1..], t', w);
    }
  }

  ghost function GrantWeight(id: string): GrantRow -> multiset<Grant> {
    (row: GrantRow) => if row.accessBundleId == id then multiset{FromGrantRow(row)} else multiset{}
  }

  ghost function PlaceWeight(id: string): PlaceRow -> multiset<string> {
    (row: PlaceRow) => if row.accessBundleId == id then multiset{row.placeId} else multiset{}
  }

  lemma {:induction false} GrantsInTotal(rows: seq<GrantRow>, id: string)
    ensures multiset(GrantsIn(rows, id)) == Total(rows, GrantWeight(id))
  {
    if rows != [] {
      GrantsInTotal(rows[1..], id);
    }
  }

  lemma {:induction false} PlacesInTotal(rows: seq<PlaceRow>, id: string)
    ensures multiset(PlacesIn(rows, id)) == Total(rows, PlaceWeight(id))
  {
    if rows != [] {
      PlacesInTotal(rows[1..], id);
    }
  }

  /** What a bundle row contributes to the grants in force at a place. */
  ghost function AttachedGrants(rows: Rows, placeId: string): BundleRow -> multiset<Grant> {
    (row: BundleRow) =>
      if placeId in PlacesIn(rows.places, row.id) then multiset(GrantsIn(rows.grants, row.id)) else multiset{}
  }

  lemma {:induction false} GrantsInForce(bundleRows: seq<BundleRow>, rows: Rows, placeId: string)
    ensures multiset(GrantsOf(BundlesForPlace(RegroupAll(bundleRows, rows), placeId))) ==
            Total(bundleRows, AttachedGrants(rows, placeId))
  {
    if bundleRows != [] {
      GrantsInForce(bundleRows[1..], rows, placeId);
      var bundles := RegroupAll(bundleRows, rows);
      assert bundles[1..] == RegroupAll(bundleRows[1..], rows);
      assert bundles[0] == Regroup(bundleRows[0], rows);
      assert [] + BundlesForPlace(bundles[1..], placeId) == BundlesForPlace(bundles[1..], placeId);
      if placeId in bundles[0].attachedPlaceIds {
        assert ([bundles[0]] + BundlesForPlace(bundles[1..], placeId))[1..] == BundlesForPlace(bundles[1..], placeId);
      }
    }
  }

  /** Reading the rows in another order leaves the grants in force at every place the same. */
  lemma ShuffleKeepsGrants(rows: Rows, original: Rows, placeId: string)
    requires Shuffled(rows, original)
    ensures multiset(GrantsOf(BundlesForPlace(FromRows(rows), placeId))) ==
            multiset(GrantsOf(BundlesForPlace(FromRows(original), placeId)))
  {
    GrantsInForce(rows.bundles, rows, placeId);
    GrantsInForce(original.bundles, original, placeId);
    forall row: BundleRow ensures AttachedGrants(rows, placeId)(row) == AttachedGrants(original, placeId)(row) {
      PlacesInTotal(rows.places, row.id);
      PlacesInTotal(original.places, row.id);
      TotalPermutes(rows.places, original.places, PlaceWeight(row.id));
      assert placeId in PlacesIn(rows.places, row.id) <==> placeId in multiset(PlacesIn(rows.places, row.id));
      assert placeId in PlacesIn(original.places, row.id) <==> placeId in multiset(PlacesIn(original.places, row.id));
      GrantsInTotal(rows.grants, row.id);
      GrantsInTotal(original.grants, row.id);
      TotalPermutes(rows.grants, original.grants, GrantWeight(row.id));
    }
    SameWeights(rows.bundles, AttachedGrants(rows, placeId), AttachedGrants(original, placeId));
    TotalPermutes(rows.bundles, original.bundles, AttachedGrants(original, placeId));
  }

  lemma {:induction false} SameWeights<A, B>(s: seq<A>, v: A -> multiset<B>, w: A -> multiset<B>)
    requires forall x: A :: x in s ==> v(x) == w(x)
    ensures Total(s, v) == Total(s, w)
  {
    if s != [] {
      SameWeights(s[1..], v, w);
    }
  }

  /** The verdict, grant and all, survives being flattened, shuffled and regrouped. */
  lemma PolicySurvivesPersistence(bundles: seq<Bundle>, rows: Rows, placeId: string, request: Request)
    requires DistinctIds(bundles) && Shuffled(rows, ToRows(bundles))
    requires DistinctGrants(GrantsOf(BundlesForPlace(bundles, placeId)))
    requires Asked(request).Some? ==> !TiesWithExact(Asked(request).value)
    ensures EvaluatePolicy(BundlesForPlace(FromRows(rows), placeId), request) ==
            EvaluatePolicy(BundlesForPlace(bundles, placeId), request)
  {
    RowsRoundTrip(bundles);
    ShuffleKeepsGrants(rows, ToRows(bundles), placeId);
    OrderImmaterial(
      GrantsOf(BundlesForPlace(bundles, placeId)), GrantsOf(BundlesForPlace(FromRows(rows), placeId)), request);
  }
}
