/** Editing the grants of an access bundle. */
module Grants {
  import opened Wrappers
  import opened Lists
  import opened Policy
  import Sorting
  import Text

  datatype GrantInput = GrantInput(
    capability: Option<Capability>, resource: Option<string>, decision: Option<Decision>, risk: Option<Risk>,
    requiresApproval: Option<bool>)

  function FirstOf<T>(a: Option<T>, b: Option<T>): Option<T> {
    if a.Some? then a else b
  }

  // ---------------------------------------------------------------- resources

  predicate IsGitHubCapability(c: Capability) {
    c == GitHubRead || c == GitHubBranch || c == GitHubPr
  }

  predicate NameChar(c: char) {
    'A' <= c <= 'Z' || 'a' <= c <= 'z' || '0' <= c <= '9' || c == '_' || c == '.' || c == '-'
  }

  predicate IsName(s: string) {
    s != "" && forall c :: c in s ==> NameChar(c)
  }

  const GITHUB_PREFIX := "github:"

  /** A grant's resource: trimmed, and for GitHub an owner in lower case and a repository. */
  function NormalizeGrantResource(capability: Capability, raw: Option<string>): Result<string> {
    if raw.None? || Text.Trim(raw.value) == "" then Err("Grant resource is required.")
    else
      var resource := Text.Trim(raw.value);
      if !IsGitHubCapability(capability) then Ok(resource)
      else if !(GITHUB_PREFIX <= resource) then Err("GitHub grants must use github:owner/repo resources.")
      else
        var parts := Text.Split(resource[|GITHUB_PREFIX|..], '/');
        if |parts| == 2 && IsName(parts[0]) && IsName(parts[1])
        then Ok(GITHUB_PREFIX + Text.Lower(parts[0]) + "/" + parts[1])
        else Err("GitHub grants must use github:owner/repo resources.")
  }

  // ---------------------------------------------------------------- editing

  predicate Collides(g: Grant, existing: Option<Grant>, capability: Capability, resource: string) {
    (existing.None? || g.id != existing.value.id) && g.capability == capability && g.resource == resource
  }

  /** The grant that an edit asks for, under the given id. */
  function NormalizeGrantInput(grants: seq<Grant>, input: GrantInput, existing: Option<Grant>,
                               id: string): Result<Grant> {
    var capability := FirstOf(input.capability, if existing.Some? then Some(existing.value.capability) else None);
    var decision := FirstOf(input.decision, if existing.Some? then Some(existing.value.decision) else None);
    var risk := FirstOf(input.risk, if existing.Some? then Some(existing.value.risk) else None);
    var requiresApproval := FirstOf(
      input.requiresApproval, if existing.Some? then Some(existing.value.requiresApproval) else None);
    if capability.None? then Err("Grant capability is required.")
    else if decision.None? then Err("Grant decision is required.")
    else if risk.None? then Err("Grant risk is required.")
    else if requiresApproval.None? then Err("Grant approval requirement is required.")
    else
      var resource :- NormalizeGrantResource(
        capability.value, FirstOf(input.resource, if existing.Some? then Some(existing.value.resource) else None));
      if decision.value == Ask && !requiresApproval.value then Err("Ask grants must require approval.")
      else if decision.value != Ask && requiresApproval.value then Err("Only ask grants can require approval.")
      else if exists g :: g in grants && Collides(g, existing, capability.value, resource) then
        Err("Duplicate grant already exists.")
      else Ok(Grant(id, capability.value, resource, decision.value, risk.value, requiresApproval.value))
  }

  function GrantIndex(grants: seq<Grant>, id: string): (i: nat)
    ensures i <= |grants| && (i < |grants| ==> grants[i].id == id)
    ensures forall j :: 0 <= j < i ==> grants[j].id != id
  {
    IndexOf(grants, (g: Grant) => g.id == id)
  }

  function OtherIds(id: string): Grant -> bool {
    (g: Grant) => g.id != id
  }

  datatype Edit =
    | Create(id: string, input: GrantInput)
    | Update(id: string, input: GrantInput)
    | Delete(id: string)

  /** The edited grants, or the error that leaves them as they are. */
  function Edited(grants: seq<Grant>, edit: Edit): Result<seq<Grant>> {
    match edit
    case Create(id, input) =>
      var grant :- NormalizeGrantInput(grants, input, None, id);
      Ok([grant] + grants)
    case Update(id, input) =>
      var i := GrantIndex(grants, id);
      if i == |grants| then Err("Grant not found.")
      else
        var grant :- NormalizeGrantInput(grants, input, Some(grants[i]), id);
        Ok(grants[i := grant])
    case Delete(id) =>
      if GrantIndex(grants, id) == |grants| then Err("Grant not found.") else Ok(Select(grants, OtherIds(id)))
  }

  class BundleGrants {
    var grants: seq<Grant>

    constructor ()
      ensures grants == []
    {
      grants := [];
    }

    method CreateGrant(input: GrantInput, id: string) returns (result: Result<Grant>)
      modifies this
      ensures var edited := Edited(old(grants), Create(id, input));
              && result.Ok? == edited.Ok? && grants == (if edited.Ok? then edited.value else old(grants))
              && (result.Ok? ==> grants == [result.value] + old(grants))
    {
      var grant :- NormalizeGrantInput(grants, input, None, id);
      grants := [grant] + grants;
      return Ok(grant);
    }

    method UpdateGrant(id: string, input: GrantInput) returns (result: Result<Grant>)
      modifies this
      ensures var edited, i := Edited(old(grants), Update(id, input)), GrantIndex(old(grants), id);
              && result.Ok? == edited.Ok? && grants == (if edited.Ok? then edited.value else old(grants))
              && (result.Ok? ==> i < |old(grants)| && grants == old(grants)[i := result.value])
              && (result.Err? ==> result.error == edited.error)
    {
      var i := GrantIndex(grants, id);
      if i == |grants| {
        return Err("Grant not found.");
      }
      var grant :- NormalizeGrantInput(grants, input, Some(grants[i]), id);
      grants := grants[i := grant];
      return Ok(grant);
    }

    method DeleteGrant(id: string) returns (result: Result<Grant>)
      modifies this
      ensures var edited, i := Edited(old(grants), Delete(id)), GrantIndex(old(grants), id);
              && result.Ok? == edited.Ok? && grants == (if edited.Ok? then edited.value else old(grants))
              && (result.Ok? ==> i < |old(grants)| && result.value == old(grants)[i])
    {
      var i := GrantIndex(grants, id);
      if i == |grants| {
        return Err("Grant not found.");
      }
      var grant := grants[i];
      grants := Select(grants, OtherIds(grant.id));
      return Ok(grant);
    }
  }

  // ---------------------------------------------------------------- what editing keeps

  predicate Differ(g: Grant, h: Grant) {
    g.capability != h.capability || g.resource != h.resource
  }

  ghost predicate NoDuplicates(grants: seq<Grant>) {
    forall i, j :: 0 <= i < j < |grants| ==> Differ(grants[i], grants[j])
  }

  /** Ids are unique, no two grants speak about the same capability and resource, and exactly the
      grants that ask require approval. */
  ghost predicate Sound(grants: seq<Grant>) {
    && (forall i, j :: 0 <= i < j < |grants| ==> grants[i].id != grants[j].id)
    && NoDuplicates(grants)
    && (forall g :: g in grants ==> (g.requiresApproval <==> g.decision == Ask))
  }

  predicate NewId(grants: seq<Grant>, edit: Edit) {
    edit.Create? ==> forall g :: g in grants ==> g.id != edit.id
  }

  /** An accepted edit keeps a bundle sound exactly when it does not create a grant under a used id. */
  lemma EditKeepsSoundExactly(grants: seq<Grant>, edit: Edit)
    requires Sound(grants) && Edited(grants, edit).Ok?
    ensures Sound(Edited(grants, edit).value) <==> NewId(grants, edit)
  {
    if NewId(grants, edit) {
      EditKeepsSound(grants, edit);
    } else {
      CreatedHasId(grants, edit);
      hide Edited;
      var g :| g in grants && g.id == edit.id;
      var i :| 0 <= i < |grants| && grants[i] == g;
      assert Edited(grants, edit).value[i + 1] == g;
    }
  }

  lemma CreatedHasId(grants: seq<Grant>, edit: Edit)
    requires edit.Create? && Edited(grants, edit).Ok?
    ensures var after := Edited(grants, edit).value;
            after != [] && after[0].id == edit.id && after == [after[0]] + grants
  {
    hide NormalizeGrantResource, Collides;
  }

  lemma EditKeepsSound(grants: seq<Grant>, edit: Edit)
    requires Sound(grants) && NewId(grants, edit) && Edited(grants, edit).Ok?
    ensures Sound(Edited(grants, edit).value)
  {
    hide Sound;
    match edit
    case Create(id, input) => CreateKeepsSound(grants, edit);
    case Update(id, input) => UpdateKeepsSound(grants, edit);
    case Delete(id) => SelectSound(grants, OtherIds(id));
  }

  lemma CreateKeepsSound(grants: seq<Grant>, edit: Edit)
    requires Sound(grants) && NewId(grants, edit) && edit.Create? && Edited(grants, edit).Ok?
    ensures Sound(Edited(grants, edit).value)
  {
    hide Sound, NormalizeGrantResource;
    var after := Edited(grants, edit).value;
    assert after == [after[0]] + grants;
    forall g | g in grants ensures Apart(after[0], g) {
      assert !Collides(g, None, after[0].capability, after[0].resource);
    }
    SoundCons(after[0], grants);
  }

  lemma UpdateKeepsSound(grants: seq<Grant>, edit: Edit)
    requires Sound(grants) && edit.Update? && Edited(grants, edit).Ok?
    ensures Sound(Edited(grants, edit).value)
  {
    hide Sound, NormalizeGrantResource;
    var i, after := GrantIndex(grants, edit.id), Edited(grants, edit).value;
    assert after == grants[i := after[i]] && after[i].id == grants[i].id;
    forall j | 0 <= j < |grants| && j != i
      ensures grants[j].id == after[i].id || Apart(after[i], grants[j])
    {
      assert grants[j] in grants && !Collides(grants[j], Some(grants[i]), after[i].capability, after[i].resource);
    }
    SoundReplaced(grants, i, after[i]);
  }

  lemma SoundReplaced(grants: seq<Grant>, i: nat, g: Grant)
    requires Sound(grants) && i < |grants| && g.id == grants[i].id && (g.requiresApproval <==> g.decision == Ask)
    requires forall j :: 0 <= j < |grants| && j != i ==> grants[j].id == g.id || Apart(g, grants[j])
    ensures Sound(grants[i := g])
  {
    var after := grants[i := g];
    forall x | x in after ensures x == g || x in grants {
      var j :| 0 <= j < |after| && after[j] == x;
    }
  }

  predicate Apart(g: Grant, h: Grant) {
    g.id != h.id && Differ(g, h)
  }

  lemma SoundTail(grants: seq<Grant>)
    requires Sound(grants) && grants != []
    ensures Sound(grants[1..]) && (grants[0].requiresApproval <==> grants[0].decision == Ask)
    ensures forall g :: g in grants[1..] ==> Apart(grants[0], g)
  {
    assert forall g :: g in grants[1..] ==> g in grants;
    assert grants[0] in grants;
  }

  lemma SoundCons(g: Grant, rest: seq<Grant>)
    requires Sound(rest) && (g.requiresApproval <==> g.decision == Ask) && forall h :: h in rest ==> Apart(g, h)
    ensures Sound([g] + rest)
  {
    forall j | 0 <= j < |rest| ensures Apart(g, rest[j]) {
      assert rest[j] in rest;
    }
  }

  lemma {:induction false} SelectSound(grants: seq<Grant>, p: Grant -> bool)
    requires Sound(grants)
    ensures Sound(Select(grants, p))
  {
    if grants != [] {
      var rest := Select(grants[1..], p);
      SoundTail(grants);
      SelectSound(grants[1..], p);
      SelectMembers(grants[1..], p);
      hide Sound, Apart;
      SoundCons(grants[0], rest);
      assert Select(grants, p) == if p(grants[0]) then [grants[0]] + rest else [] + rest;
      assert [] + rest == rest;
    }
  }

  /** A refused edit changes nothing. */
  function Step(grants: seq<Grant>, edit: Edit): seq<Grant> {
    if Edited(grants, edit).Ok? then Edited(grants, edit).value else grants
  }

  function AfterEdits(grants: seq<Grant>, edits: seq<Edit>): seq<Grant>
    decreases edits
  {
    if edits == [] then grants else AfterEdits(Step(grants, edits[0]), edits[1..])
  }

  /** Sound at the start and after each edit. */
  ghost predicate SoundThroughout(grants: seq<Grant>, edits: seq<Edit>)
    decreases edits
  {
    Sound(grants) && (edits != [] ==> SoundThroughout(Step(grants, edits[0]), edits[1..]))
  }

  /** Every accepted creation brings an id that no grant has at that moment. */
  ghost predicate NewIds(grants: seq<Grant>, edits: seq<Edit>)
    decreases edits
  {
    edits != [] ==>
      (Edited(grants, edits[0]).Ok? ==> NewId(grants, edits[0])) && NewIds(Step(grants, edits[0]), edits[1..])
  }

  /** Over any edits, a sound bundle stays sound exactly when the created ids are new. */
  lemma {:induction false} SoundThroughoutExactly(grants: seq<Grant>, edits: seq<Edit>)
    requires Sound(grants)
    ensures SoundThroughout(grants, edits) <==> NewIds(grants, edits)
    decreases edits
  {
    hide Sound, Edited, NewId;
    if edits != [] {
      if Edited(grants, edits[0]).Ok? {
        EditKeepsSoundExactly(grants, edits[0]);
      }
      if Sound(Step(grants, edits[0])) {
        SoundThroughoutExactly(Step(grants, edits[0]), edits[1..]);
      }
    }
  }

  ghost predicate Reaches(edits: seq<Edit>, grants: seq<Grant>) {
    if edits == [] then grants == []
    else
      var n := |edits| - 1;
      exists before :: Reaches(edits[..n], before) && NewId(before, edits[n])
        && grants == Step(before, edits[n])
  }

  /** Whatever edits are made, a bundle's grants stay sound as long as created ids are new. */
  lemma {:induction false} EditsKeepSound(edits: seq<Edit>, grants: seq<Grant>)
    requires Reaches(edits, grants)
    ensures Sound(grants)
  {
    if edits != [] {
      var n := |edits| - 1;
      var before :| Reaches(edits[..n], before) && NewId(before, edits[n])
        && grants == Step(before, edits[n]);
      EditsKeepSound(edits[..n], before);
      hide Sound, Edited, NewId;
      if Edited(before, edits[n]).Ok? {
        EditKeepsSound(before, edits[n]);
      }
    }
  }

  /** For a place whose only bundle was edited this way, the policy's verdict needs approval exactly
      when the grant that decides it asks, and does not depend on the order of the grants. */
  lemma SoundVerdict(edits: seq<Edit>, grants: seq<Grant>, shuffled: seq<Grant>, request: Request)
    requires Reaches(edits, grants) && multiset(grants) == multiset(shuffled)
    requires Asked(request).Some? ==> !TiesWithExact(Asked(request).value)
    ensures Evaluate(shuffled, request) == Evaluate(grants, request)
    ensures Evaluate(grants, request).requiresApproval <==> Evaluate(grants, request).decision == Ask
  {
    EditsKeepSound(edits, grants);
    SoundIsDistinct(grants);
    OrderImmaterial(grants, shuffled, request);
    VerdictAsks(grants, request);
  }

  lemma SoundIsDistinct(grants: seq<Grant>)
    requires Sound(grants)
    ensures DistinctGrants(grants)
  {
    forall g, h | g in grants && h in grants && g.capability == h.capability && g.resource == h.resource
      ensures g == h {
      var i :| 0 <= i < |grants| && grants[i] == g;
      var j :| 0 <= j < |grants| && grants[j] == h;
    }
  }

  lemma {:induction false} DenyIsDeny(grants: seq<Grant>)
    ensures FirstDeny(grants).Some? ==> FirstDeny(grants).value in grants && FirstDeny(grants).value.decision == Deny
    ensures FirstDeny(grants).None? ==> forall g :: g in grants ==> g.decision != Deny
  {
    if grants != [] && grants[0].decision != Deny {
      DenyIsDeny(grants[1..]);
    }
  }

  lemma VerdictAsks(grants: seq<Grant>, request: Request)
    requires Sound(grants)
    ensures Evaluate(grants, request).requiresApproval <==> Evaluate(grants, request).decision == Ask
  {
    var matching := Matching(grants, request);
    var ranked := Sorting.Sort(matching, MoreSpecificFirst(request));
    Sorting.SortMembers(matching, MoreSpecificFirst(request));
    DenyIsDeny(ranked);
    if ranked != [] {
      assert ranked[0] in ranked;
      MatchingMembers(grants, request, ranked[0]);
    }
  }

  // ---------------------------------------------------------------- duplicates alone

  /** An update of the first grant with an id gives it the capability and resource of another grant
      with that id. */
  predicate CopiesNamesake(grants: seq<Grant>, edit: Edit) {
    && edit.Update?
    && var i := GrantIndex(grants, edit.id);
       i < |grants| &&
       var capability := if edit.input.capability.Some? then edit.input.capability.value else grants[i].capability;
       var raw := FirstOf(edit.input.resource, Some(grants[i].resource));
       exists j :: i < j < |grants| && grants[j].id == edit.id && grants[j].capability == capability
                   && NormalizeGrantResource(capability, raw) == Ok(grants[j].resource)
  }

  /** For the duplicates alone new ids are more than is needed: an accepted edit makes one exactly when it
      copies a namesake. */
  lemma EditDuplicatesExactly(grants: seq<Grant>, edit: Edit)
    requires NoDuplicates(grants) && Edited(grants, edit).Ok?
    ensures NoDuplicates(Edited(grants, edit).value) <==> !CopiesNamesake(grants, edit)
  {
    match edit
    case Create(id, input) => CreateKeepsApart(grants, edit);
    case Update(id, input) => UpdateDuplicatesExactly(grants, edit);
    case Delete(id) => SelectKeepsApart(grants, OtherIds(id));
  }

  lemma CreateKeepsApart(grants: seq<Grant>, edit: Edit)
    requires NoDuplicates(grants) && edit.Create? && Edited(grants, edit).Ok?
    ensures NoDuplicates(Edited(grants, edit).value)
  {
    hide NormalizeGrantResource;
    var after := Edited(grants, edit).value;
    assert after == [after[0]] + grants;
    forall j | 0 <= j < |grants| ensures Differ(after[0], grants[j]) {
      assert grants[j] in grants && !Collides(grants[j], None, after[0].capability, after[0].resource);
    }
  }

  lemma UpdateDuplicatesExactly(grants: seq<Grant>, edit: Edit)
    requires NoDuplicates(grants) && edit.Update? && Edited(grants, edit).Ok?
    ensures NoDuplicates(Edited(grants, edit).value) <==> !CopiesNamesake(grants, edit)
  {
    hide NormalizeGrantResource;
    var i, after := GrantIndex(grants, edit.id), Edited(grants, edit).value;
    assert after == grants[i := after[i]];
    forall j | 0 <= j < |grants| && j != i ensures grants[j].id == edit.id || Differ(after[i], grants[j]) {
      assert grants[j] in grants && !Collides(grants[j], Some(grants[i]), after[i].capability, after[i].resource);
    }
    if CopiesNamesake(grants, edit) {
      var j :| i < j < |grants| && grants[j].id == edit.id && !Differ(after[i], grants[j]);
      assert !Differ(after[i], after[j]);
    } else {
      forall j | 0 <= j < |grants| && j != i ensures Differ(after[i], after[j]) {
      }
    }
  }

  lemma {:induction false} SelectKeepsApart(grants: seq<Grant>, p: Grant -> bool)
    requires NoDuplicates(grants)
    ensures NoDuplicates(Select(grants, p))
  {
    if grants != [] {
      var rest := Select(grants[1..], p);
      SelectKeepsApart(grants[1..], p);
      SelectMembers(grants[1..], p);
      forall j | 0 <= j < |rest| ensures Differ(grants[0], rest[j]) {
        assert rest[j] in rest && rest[j] in grants[1..];
      }
      assert Select(grants, p) == if p(grants[0]) then [grants[0]] + rest else [] + rest;
      assert [] + rest == rest;
    }
  }

  /** Without duplicates at the start and after each edit. */
  ghost predicate ApartThroughout(grants: seq<Grant>, edits: seq<Edit>)
    decreases edits
  {
    NoDuplicates(grants) && (edits != [] ==> ApartThroughout(Step(grants, edits[0]), edits[1..]))
  }

  ghost predicate NoNamesakeCopied(grants: seq<Grant>, edits: seq<Edit>)
    decreases edits
  {
    edits != [] ==>
      && (Edited(grants, edits[0]).Ok? ==> !CopiesNamesake(grants, edits[0]))
      && NoNamesakeCopied(Step(grants, edits[0]), edits[1..])
  }

  /** Over any edits, under new ids or not. */
  lemma {:induction false} ApartThroughoutExactly(grants: seq<Grant>, edits: seq<Edit>)
    requires NoDuplicates(grants)
    ensures ApartThroughout(grants, edits) <==> NoNamesakeCopied(grants, edits)
    decreases edits
  {
    hide NoDuplicates, Edited, CopiesNamesake;
    if edits != [] {
      if Edited(grants, edits[0]).Ok? {
        EditDuplicatesExactly(grants, edits[0]);
      }
      if NoDuplicates(Step(grants, edits[0])) {
        ApartThroughoutExactly(Step(grants, edits[0]), edits[1..]);
      }
    }
  }

  /** The duplicate check passes over every grant with the edited one's id, so of two grants with one id
      the first can be turned into a copy of the second. */
  lemma ReusedIdAdmitsDuplicate(g: Grant, h: Grant)
    requires g.id == h.id && g.capability == h.capability && g.resource != h.resource
    requires (g.requiresApproval <==> g.decision == Ask)
             && NormalizeGrantResource(g.capability, Some(h.resource)) == Ok(h.resource)
    ensures var edit := Update(g.id, GrantInput(None, Some(h.resource), None, None, None));
            Edited([g, h], edit) == Ok([g.(resource := h.resource), h])
  {
    hide NormalizeGrantResource;
    var changed := g.(resource := h.resource);
    assert GrantIndex([g, h], g.id) == 0;
    assert forall x :: x in [g, h] ==> !Collides(x, Some(g), g.capability, h.resource);
    assert NormalizeGrantInput([g, h], GrantInput(None, Some(h.resource), None, None, None), Some(g), g.id)
         == Ok(changed);
    assert [g, h][0 := changed] == [changed, h];
  }

  function Allowing(resource: string): GrantInput {
    GrantInput(Some(SlackRead), Some(resource), Some(Allow), Some(ReadInternal), Some(false))
  }

  function Allowed(resource: string): Grant {
    Grant("a", SlackRead, resource, Allow, ReadInternal, false)
  }

  /** Two creations under one id, then an update of it. */
  const DUPLICATING := [
    Create("a", Allowing("x")), Create("a", Allowing("y")), Update("a", GrantInput(None, Some("x"), None, None, None))]

  /** From the empty bundle these edits are all accepted and leave two grants for one capability and
      resource. */
  lemma DuplicateReached()
    ensures AfterEdits([], DUPLICATING) == [Allowed("x"), Allowed("x")] && !NoDuplicates(AfterEdits([], DUPLICATING))
  {
    DuplicatingSteps();
    hide Edited;
    AfterThree([], DUPLICATING[0], DUPLICATING[1], DUPLICATING[2]);
    assert DUPLICATING == [DUPLICATING[0], DUPLICATING[1], DUPLICATING[2]];
    var twice := [Allowed("x"), Allowed("x")];
    assert !Differ(twice[0], twice[1]);
  }

  lemma AfterThree(grants: seq<Grant>, a: Edit, b: Edit, c: Edit)
    ensures AfterEdits(grants, [a, b, c]) == Step(Step(Step(grants, a), b), c)
  {
    hide Step;
    assert [a, b, c][1..] == [b, c] && [b, c][1..] == [c] && [c][1..] == [];
    var one := Step(grants, a);
    assert AfterEdits(one, [b, c]) == AfterEdits(Step(one, b), [c]) == Step(Step(one, b), c);
  }

  lemma DuplicatingSteps()
    ensures Edited([], DUPLICATING[0]) == Ok([Allowed("x")])
    ensures Edited([Allowed("x")], DUPLICATING[1]) == Ok([Allowed("y"), Allowed("x")])
    ensures Edited([Allowed("y"), Allowed("x")], DUPLICATING[2]) == Ok([Allowed("x"), Allowed("x")])
  {
    hide Edited, NormalizeGrantResource;
    var x, y := Allowed("x"), Allowed("y");
    ShortResource("x");
    ShortResource("y");
    CreatesAllowed([], "x");
    CreatesAllowed([x], "y");
    ReusedIdAdmitsDuplicate(y, x);
    assert y.(resource := "x") == x && [y] + [x] == [y, x] && [x] + [] == [x];
  }

  lemma ShortResource(resource: string)
    requires resource == "x" || resource == "y"
    ensures NormalizeGrantResource(SlackRead, Some(resource)) == Ok(resource)
  {
    hide Text.Trim;
    assert Text.Trimmed(resource);
    assert Text.Trim(resource) == resource;
  }

  lemma CreatesAllowed(grants: seq<Grant>, resource: string)
    requires NormalizeGrantResource(SlackRead, Some(resource)) == Ok(resource)
    requires forall g :: g in grants ==> g.resource != resource
    ensures Edited(grants, Create("a", Allowing(resource))) == Ok([Allowed(resource)] + grants)
  {
    hide NormalizeGrantResource;
  }
}
