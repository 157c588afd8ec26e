/** The text that a plan hash is taken over names everything the plan binds. */
module PlanHash {
  import opened Wrappers
  import opened CanonicalJson
  import Lists
  import Plans = GitHubPlans

  // ---------------------------------------------------------------- strings and numbers as JSON

  /** The UTF-16 code units of a character. */
  function UnitsOf(c: char): Text {
    if c as int < 0x1_0000 then [c as CodeUnit]
    else
      var rest := c as int - 0x1_0000;
      [(0xD800 + rest / 0x400) as CodeUnit, (0xDC00 + rest % 0x400) as CodeUnit]
  }

  function Units(s: string): Text {
    if s == "" then [] else UnitsOf(s[0]) + Units(s[1..])
  }

  lemma UnitsOfPrefixFree(c: char, d: char, r: Text, t: Text)
    requires UnitsOf(c) + r == UnitsOf(d) + t
    ensures c == d && r == t
  {
    var x, y := UnitsOf(c) + r, UnitsOf(d) + t;
    assert x[0] == UnitsOf(c)[0] && y[0] == UnitsOf(d)[0];
    assert |UnitsOf(c)| == 2 ==> x[1] == UnitsOf(c)[1];
    assert |UnitsOf(d)| == 2 ==> y[1] == UnitsOf(d)[1];
    assert |UnitsOf(c)| == |UnitsOf(d)|;
    SplitEqually(UnitsOf(c), r, UnitsOf(d), t);
  }

  lemma {:induction false} UnitsInjective(s: string, t: string)
    requires Units(s) == Units(t)
    ensures s == t
  {
    if s != "" && t != "" {
      UnitsOfPrefixFree(s[0], t[0], Units(s[1..]), Units(t[1..]));
      UnitsInjective(s[1..], t[1..]);
      assert s == [s[0]] + s[1..] && t == [t[0]] + t[1..];
    }
  }

  /** The decimal digits of a number. */
  function Digits(n: nat): (t: Text)
    ensures t != [] && forall u :: u in t ==> IsDigit(u)
  {
    var last := '0' as CodeUnit + (n % 10) as CodeUnit;
    if n < 10 then [last] else Digits(n / 10) + [last]
  }

  lemma {:induction false} DigitsInjective(m: nat, n: nat)
    requires Digits(m) == Digits(n)
    ensures m == n
  {
    assert Digits(m)[|Digits(m)| - 1] == '0' as CodeUnit + (m % 10) as CodeUnit;
    assert Digits(n)[|Digits(n)| - 1] == '0' as CodeUnit + (n % 10) as CodeUnit;
    if m >= 10 && n >= 10 {
      assert Digits(m / 10) == Digits(m)[..|Digits(m)| - 1] && Digits(n / 10) == Digits(n)[..|Digits(n)| - 1];
      DigitsInjective(m / 10, n / 10);
    }
  }

  function StringJson(s: string): Json {
    Str(Units(s))
  }

  function NumberJson(n: nat): Json {
    Num(Digits(n))
  }

  function ListJson(list: seq<string>): Json {
    Arr(seq(|list|, i requires 0 <= i < |list| => StringJson(list[i])))
  }

  /** `text ?? null` */
  function OrNull(s: Option<string>): Json {
    if s.Some? then StringJson(s.value) else Null
  }

  function ListOrNull(list: Option<seq<string>>): Json {
    if list.Some? then ListJson(list.value) else Null
  }

  /** An absent property is left out of the text. */
  function OrAbsent(s: Option<string>): Json {
    if s.Some? then StringJson(s.value) else Undef
  }

  function NumberOrAbsent(n: Option<nat>): Json {
    if n.Some? then NumberJson(n.value) else Undef
  }

  lemma StringEquivalent(s: string, t: string)
    requires Equiv(StringJson(s), StringJson(t), AsNull)
    ensures s == t
  {
    UnitsInjective(s, t);
  }

  lemma OrNullEquivalent(s: Option<string>, t: Option<string>)
    requires Equiv(OrNull(s), OrNull(t), AsNull)
    ensures s == t
  {
    if s.Some? && t.Some? {
      StringEquivalent(s.value, t.value);
    }
  }

  lemma OrAbsentEquivalent(s: Option<string>, t: Option<string>)
    requires Equiv(OrAbsent(s), OrAbsent(t), AsNull)
    ensures s == t
  {
    if s.Some? && t.Some? {
      StringEquivalent(s.value, t.value);
    }
  }

  lemma NumberOrAbsentEquivalent(m: Option<nat>, n: Option<nat>)
    requires Equiv(NumberOrAbsent(m), NumberOrAbsent(n), AsNull)
    ensures m == n
  {
    if m.Some? && n.Some? {
      DigitsInjective(m.value, n.value);
    }
  }

  lemma ListEquivalent(a: seq<string>, b: seq<string>)
    requires Equiv(ListJson(a), ListJson(b), AsNull)
    ensures a == b
  {
    hide Units;
    forall i | 0 <= i < |a| ensures a[i] == b[i] {
      assert Equiv(ListJson(a).items[i], ListJson(b).items[i], AsNull);
      StringEquivalent(a[i], b[i]);
    }
  }

  lemma ListOrNullEquivalent(a: Option<seq<string>>, b: Option<seq<string>>)
    requires Equiv(ListOrNull(a), ListOrNull(b), AsNull)
    ensures a == b
  {
    if a.Some? && b.Some? {
      ListEquivalent(a.value, b.value);
    }
  }

  // ---------------------------------------------------------------- objects with fixed keys

  function Fields(names: seq<string>, value: nat -> Json): seq<Entry> {
    seq(|names|, i requires 0 <= i < |names| => Entry(Units(names[i]), value(i)))
  }

  /** Names that their length and first character tell apart. */
  ghost predicate Told(names: seq<string>) {
    && (forall i :: 0 <= i < |names| ==> names[i] != "")
    && forall i, j :: 0 <= i < j < |names| ==> |names[i]| != |names[j]| || names[i][0] != names[j][0]
  }

  lemma FieldsDistinct(names: seq<string>, value: nat -> Json)
    requires Told(names)
    ensures DistinctKeys(Fields(names, value))
  {
    forall i, j | 0 <= i < j < |names| ensures Units(names[i]) != Units(names[j]) {
      if Units(names[i]) == Units(names[j]) {
        UnitsInjective(names[i], names[j]);
      }
    }
  }

  lemma FieldsWellFormed(names: seq<string>, value: nat -> Json)
    requires Told(names) && forall i :: 0 <= i < |names| ==> WellFormed(value(i))
    ensures WellFormed(Obj(Fields(names, value)))
  {
    FieldsDistinct(names, value);
  }

  /** Objects with the same keys are equivalent only if their values are, key by key. */
  lemma FieldsEquivalent(names: seq<string>, v: nat -> Json, w: nat -> Json)
    requires Told(names) && Equiv(Obj(Fields(names, v)), Obj(Fields(names, w)), AsNull)
    ensures forall i :: 0 <= i < |names| ==> Equiv(v(i), w(i), AsNull)
  {
    var es, fs := Fields(names, v), Fields(names, w);
    FieldsDistinct(names, v);
    FieldsDistinct(names, w);
    forall i | 0 <= i < |names| ensures Equiv(v(i), w(i), AsNull) {
      assert es[i] in es && fs[i] in fs;
      LookupFinds(fs, fs[i]);
      assert Equiv(es[i].value, Lookup(fs, es[i].key), AsNull);
    }
  }

  // ---------------------------------------------------------------- what a plan binds

  /** `GitHubPullRequestWriteApprovalHashInput`, its fixed fields aside. */
  datatype HashInput = HashInput(
    repository: Plans.RepoRef, title: string, body: string, baseBranch: string, headBranch: string, draft: bool,
    maintainerCanModify: bool, labels: seq<string>, reviewers: seq<string>, installationId: Option<string>,
    repositoryId: Option<nat>, existingPullRequestNumber: Option<nat>, headCommitSha: Option<string>)

  /** `GitHubPullRequestPlanHashBinding`, its fixed fields and the hash aside. */
  datatype Binding = Binding(
    approvalHashInput: HashInput, diffSummary: Option<string>, files: Option<seq<string>>, modelRoute: Option<string>,
    runtime: Option<string>, requesterPrincipalId: Option<string>)

  const REPOSITORY_NAMES := ["provider", "owner", "repo", "fullName", "resource"]

  const HASH_INPUT_NAMES := [
    "type", "version", "visibleAgentHandle", "action", "resource", "repository", "title", "body", "baseBranch",
    "headBranch", "draft", "maintainerCanModify", "labels", "reviewers", "installationId", "repositoryId",
    "existingPullRequestNumber", "headCommitSha"]

  const BINDING_NAMES := [
    "approvalHashInput", "diffSummary", "files", "modelRoute", "runtime", "requesterPrincipalId"]

  function RepositoryValue(r: Plans.RepoRef, i: nat): Json {
    match i
    case 0 => StringJson("github")
    case 1 => StringJson(r.owner)
    case 2 => StringJson(r.repo)
    case 3 => StringJson(r.owner + "/" + r.repo)
    case _ => StringJson(Plans.Resource(r))
  }

  function RepositoryJson(r: Plans.RepoRef): Json {
    Obj(Fields(REPOSITORY_NAMES, (i: nat) => RepositoryValue(r, i)))
  }

  function HashInputValue(h: HashInput, i: nat): Json {
    match i
    case 0 => StringJson("github.pr.write.approval_hash_input")
    case 1 => NumberJson(1)
    case 2 => StringJson("@bek")
    case 3 => StringJson("github.pr")
    case 4 => StringJson(Plans.Resource(h.repository))
    case 5 => RepositoryJson(h.repository)
    case 6 => StringJson(h.title)
    case 7 => StringJson(h.body)
    case 8 => StringJson(h.baseBranch)
    case 9 => StringJson(h.headBranch)
    case 10 => Bool(h.draft)
    case 11 => Bool(h.maintainerCanModify)
    case 12 => ListJson(h.labels)
    case 13 => ListJson(h.reviewers)
    case 14 => OrAbsent(h.installationId)
    case 15 => NumberOrAbsent(h.repositoryId)
    case 16 => NumberOrAbsent(h.existingPullRequestNumber)
    case _ => OrAbsent(h.headCommitSha)
  }

  function HashInputJson(h: HashInput): Json {
    Obj(Fields(HASH_INPUT_NAMES, (i: nat) => HashInputValue(h, i)))
  }

  function BindingValue(b: Binding, i: nat): Json {
    match i
    case 0 => HashInputJson(b.approvalHashInput)
    case 1 => OrNull(b.diffSummary)
    case 2 => ListOrNull(b.files)
    case 3 => OrNull(b.modelRoute)
    case 4 => OrNull(b.runtime)
    case _ => OrNull(b.requesterPrincipalId)
  }

  /** What is canonicalised and hashed. */
  function BindingJson(b: Binding): Json {
    Obj(Fields(BINDING_NAMES, (i: nat) => BindingValue(b, i)))
  }

  function PlanText(b: Binding): Text {
    Stringify(BindingJson(b), Style(CodeUnitOrder, AsNull))
  }

  lemma RepositoryNamesTold()
    ensures Told(REPOSITORY_NAMES)
  {
  }

  /** Where a name of that length and first character stands. */
  function PlaceOf(length: nat, first: char): nat {
    match length
    case 4 => if first == 't' then 0 else 7
    case 7 => 1
    case 18 => 2
    case 6 => if first == 'a' then 3 else 12
    case 8 => 4
    case 10 => if first == 'r' then 5 else if first == 'b' then 8 else 9
    case 5 => if first == 't' then 6 else 10
    case 19 => 11
    case 9 => 13
    case 14 => 14
    case 12 => 15
    case 25 => 16
    case _ => 17
  }

  lemma HashInputNamesTold()
    ensures Told(HASH_INPUT_NAMES)
  {
    var names := HASH_INPUT_NAMES;
    forall i | 0 <= i < |names| ensures names[i] != "" && PlaceOf(|names[i]|, names[i][0]) == i {
    }
  }

  lemma BindingNamesTold()
    ensures Told(BINDING_NAMES)
  {
  }

  /** Neither an array nor an object. */
  predicate IsLeaf(v: Json) {
    !v.Arr? && !v.Obj?
  }

  lemma LeafWellFormed(v: Json)
    requires IsLeaf(v)
    ensures WellFormed(v)
  {
  }

  lemma ListWellFormed(list: seq<string>)
    ensures WellFormed(ListJson(list))
  {
  }

  lemma RepositoryWellFormed(r: Plans.RepoRef)
    ensures WellFormed(RepositoryJson(r))
  {
    hide Told, Fields, Units, WellFormed;
    RepositoryNamesTold();
    forall i: nat | i < |REPOSITORY_NAMES| ensures WellFormed(RepositoryValue(r, i)) {
      LeafWellFormed(RepositoryValue(r, i));
    }
    FieldsWellFormed(REPOSITORY_NAMES, (i: nat) => RepositoryValue(r, i));
  }

  lemma HashInputValueWellFormed(h: HashInput, i: nat)
    ensures WellFormed(HashInputValue(h, i))
  {
    hide Fields, Units, Digits, WellFormed, ListJson, RepositoryValue;
    RepositoryWellFormed(h.repository);
    ListWellFormed(h.labels);
    ListWellFormed(h.reviewers);
    if i != 5 && i != 12 && i != 13 {
      LeafWellFormed(HashInputValue(h, i));
    }
  }

  lemma HashInputWellFormed(h: HashInput)
    ensures WellFormed(HashInputJson(h))
  {
    hide Told, Fields, WellFormed, HashInputValue;
    HashInputNamesTold();
    forall i: nat | i < |HASH_INPUT_NAMES| ensures WellFormed(HashInputValue(h, i)) {
      HashInputValueWellFormed(h, i);
    }
    FieldsWellFormed(HASH_INPUT_NAMES, (i: nat) => HashInputValue(h, i));
  }

  lemma BindingWellFormed(b: Binding)
    ensures WellFormed(BindingJson(b))
  {
    hide Told, Fields, Units, WellFormed, ListJson, HashInputValue;
    BindingNamesTold();
    HashInputWellFormed(b.approvalHashInput);
    ListWellFormed(OrElse(b.files, []));
    forall i: nat | i < |BINDING_NAMES| ensures WellFormed(BindingValue(b, i)) {
      if i != 0 && !(i == 2 && b.files.Some?) {
        LeafWellFormed(BindingValue(b, i));
      }
    }
    FieldsWellFormed(BINDING_NAMES, (i: nat) => BindingValue(b, i));
  }

  // ---------------------------------------------------------------- it binds everything

  lemma RepositoryEquivalent(r: Plans.RepoRef, q: Plans.RepoRef)
    requires Equiv(RepositoryJson(r), RepositoryJson(q), AsNull)
    ensures r == q
  {
    hide Told, Fields, StringJson;
    RepositoryNamesTold();
    var v, w := (i: nat) => RepositoryValue(r, i), (i: nat) => RepositoryValue(q, i);
    FieldsEquivalent(REPOSITORY_NAMES, v, w);
    assert Equiv(v(1), w(1), AsNull) && Equiv(v(2), w(2), AsNull);
    StringEquivalent(r.owner, q.owner);
    StringEquivalent(r.repo, q.repo);
  }

  ghost predicate SameAt(h: HashInput, k: HashInput, i: nat) {
    Equiv(HashInputValue(h, i), HashInputValue(k, i), AsNull)
  }

  lemma HashInputTextsEquivalent(h: HashInput, k: HashInput)
    requires forall i: nat :: i < |HASH_INPUT_NAMES| ==> SameAt(h, k, i)
    ensures h.repository == k.repository && h.title == k.title && h.body == k.body
    ensures h.baseBranch == k.baseBranch && h.headBranch == k.headBranch
  {
    hide StringJson, ListJson, OrAbsent, NumberOrAbsent, RepositoryValue, Fields;
    assert SameAt(h, k, 5) && SameAt(h, k, 6) && SameAt(h, k, 7) && SameAt(h, k, 8) && SameAt(h, k, 9);
    hide Equiv;
    RepositoryEquivalent(h.repository, k.repository);
    StringEquivalent(h.title, k.title);
    StringEquivalent(h.body, k.body);
    StringEquivalent(h.baseBranch, k.baseBranch);
    StringEquivalent(h.headBranch, k.headBranch);
  }

  lemma HashInputFlagsEquivalent(h: HashInput, k: HashInput)
    requires forall i: nat :: i < |HASH_INPUT_NAMES| ==> SameAt(h, k, i)
    ensures h.draft == k.draft && h.maintainerCanModify == k.maintainerCanModify
    ensures h.labels == k.labels && h.reviewers == k.reviewers
  {
    hide StringJson, ListJson, OrAbsent, NumberOrAbsent, RepositoryValue, Fields;
    assert SameAt(h, k, 10) && SameAt(h, k, 11) && SameAt(h, k, 12) && SameAt(h, k, 13);
    ListEquivalent(h.labels, k.labels);
    ListEquivalent(h.reviewers, k.reviewers);
  }

  lemma HashInputIdsEquivalent(h: HashInput, k: HashInput)
    requires forall i: nat :: i < |HASH_INPUT_NAMES| ==> SameAt(h, k, i)
    ensures h.installationId == k.installationId && h.repositoryId == k.repositoryId
    ensures h.existingPullRequestNumber == k.existingPullRequestNumber && h.headCommitSha == k.headCommitSha
  {
    hide StringJson, ListJson, OrAbsent, NumberOrAbsent, RepositoryValue, Fields;
    assert SameAt(h, k, 14) && SameAt(h, k, 15) && SameAt(h, k, 16) && SameAt(h, k, 17);
    hide Equiv;
    OrAbsentEquivalent(h.installationId, k.installationId);
    NumberOrAbsentEquivalent(h.repositoryId, k.repositoryId);
    NumberOrAbsentEquivalent(h.existingPullRequestNumber, k.existingPullRequestNumber);
    OrAbsentEquivalent(h.headCommitSha, k.headCommitSha);
  }

  lemma HashInputEquivalent(h: HashInput, k: HashInput)
    requires Equiv(HashInputJson(h), HashInputJson(k), AsNull)
    ensures h == k
  {
    hide Told, Fields, HashInputValue, Equiv;
    HashInputNamesTold();
    var v, w := (i: nat) => HashInputValue(h, i), (i: nat) => HashInputValue(k, i);
    FieldsEquivalent(HASH_INPUT_NAMES, v, w);
    forall i: nat | i < |HASH_INPUT_NAMES| ensures SameAt(h, k, i) {
      assert Equiv(v(i), w(i), AsNull);
    }
    HashInputTextsEquivalent(h, k);
    HashInputFlagsEquivalent(h, k);
    HashInputIdsEquivalent(h, k);
  }

  lemma BindingEquivalent(a: Binding, b: Binding)
    requires Equiv(BindingJson(a), BindingJson(b), AsNull)
    ensures a == b
  {
    hide Told, Fields, HashInputValue, OrNull, ListOrNull;
    BindingNamesTold();
    var v, w := (i: nat) => BindingValue(a, i), (i: nat) => BindingValue(b, i);
    FieldsEquivalent(BINDING_NAMES, v, w);
    assert Equiv(v(0), w(0), AsNull) && Equiv(v(1), w(1), AsNull) && Equiv(v(2), w(2), AsNull);
    assert Equiv(v(3), w(3), AsNull) && Equiv(v(4), w(4), AsNull) && Equiv(v(5), w(5), AsNull);
    hide Equiv;
    HashInputEquivalent(a.approvalHashInput, b.approvalHashInput);
    OrNullEquivalent(a.diffSummary, b.diffSummary);
    ListOrNullEquivalent(a.files, b.files);
    OrNullEquivalent(a.modelRoute, b.modelRoute);
    OrNullEquivalent(a.runtime, b.runtime);
    OrNullEquivalent(a.requesterPrincipalId, b.requesterPrincipalId);
  }

  /** Two bindings are hashed over the same text exactly when they agree in every field, absent fields
      included. */
  lemma PlanTextBindsEverything(a: Binding, b: Binding)
    ensures PlanText(a) == PlanText(b) <==> a == b
  {
    hide BindingJson;
    BindingWellFormed(a);
    BindingWellFormed(b);
    BranchesTextIsFaithful(BindingJson(a), BindingJson(b));
    if PlanText(a) == PlanText(b) {
      hide PlanText, WellFormed, Equiv;
      BindingEquivalent(a, b);
    }
  }

  // ---------------------------------------------------------------- what the hash of a plan fixes

  /** Repository ids are positive. */
  predicate HasId(h: Plans.HashInput) {
    h.repositoryId.Some? ==> h.repositoryId.value > 0
  }

  /** What a draft pull-request plan passes on; the other fields are absent. */
  function OfPlan(h: Plans.HashInput, files: seq<string>, requester: Option<string>): Binding
    requires HasId(h)
  {
    var repositoryId := if h.repositoryId.Some? then Some(h.repositoryId.value as nat) else None;
    Binding(
      HashInput(h.repository, h.title, h.body, h.baseBranch, h.headBranch, h.draft, h.maintainerCanModify, h.labels,
                h.reviewers, Some(h.installationId), repositoryId, None, None),
      None, Some(files), None, None, requester)
  }

  /** Plan hashes are digests of the plan text. */
  ghost predicate HashesPlanText(env: Plans.Env, digest: Text -> string) {
    forall h, files, who :: HasId(h) ==> env.planHash(h, files, who) == digest(PlanText(OfPlan(h, files, who)))
  }

  /** Two texts that the digest cannot tell apart. */
  predicate Collide(digest: Text -> string, s: Text, t: Text) {
    s != t && digest(s) == digest(t)
  }

  /** What the hash of a plan stands for: of its changes the paths alone, and neither the commit
      message nor the run. */
  datatype Bound = Bound(
    repository: Plans.RepoRef, title: string, body: string, baseBranch: string, headBranch: string, draft: bool,
    maintainerCanModify: bool, labels: seq<string>, reviewers: seq<string>, installationId: string,
    repositoryId: Option<int>, paths: seq<string>, requester: Option<string>)

  function BoundBy(p: Plans.Plan, env: Plans.Env): Bound {
    var pr := p.pullRequest;
    Bound(pr.repository, pr.title, pr.body, pr.baseBranch, pr.headBranch, pr.draft, pr.maintainerCanModify,
          Plans.SortedUniqueTexts(pr.labels, env.collate), Plans.SortedUniqueTexts(pr.reviewers, env.collate),
          p.installationId, p.repositoryId,
          Plans.SortedUniqueTexts(Lists.Map(p.commit.changes, Plans.PathOf()), env.codeUnits), p.requester)
  }

  function TextOf(p: Plans.Plan): Text {
    var b := p.planHashBinding;
    if HasId(b.approvalHashInput) then PlanText(OfPlan(b.approvalHashInput, b.files, b.requester)) else []
  }

  lemma ShapeHashed(x: Plans.Parts, resolution: Plans.Resolution, env: Plans.Env, digest: Text -> string)
    requires Plans.Fixed(x, env) && HashesPlanText(env, digest)
    ensures var p := Plans.Shape(x, resolution, env); var b := p.planHashBinding;
            && HasId(b.approvalHashInput) && b.hash == digest(TextOf(p))
            && BoundBy(p, env) == BoundTo(b)
  {
    Plans.FixedIdPositive(x, env);
    hide PlanText, Plans.Fixed, Plans.SortedUniqueTexts;
  }

  function BoundTo(b: Plans.Binding): Bound {
    var h := b.approvalHashInput;
    Bound(h.repository, h.title, h.body, h.baseBranch, h.headBranch, h.draft, h.maintainerCanModify, h.labels,
          h.reviewers, h.installationId, h.repositoryId, b.files, b.requester)
  }

  lemma PlanHashed(a: Plans.PlanInput, env: Plans.Env, digest: Text -> string)
    requires Plans.HexEnv(env) && HashesPlanText(env, digest) && Plans.CreatePlan(a, env).Ok?
    ensures var p := Plans.CreatePlan(a, env).value; var b := p.planHashBinding;
            HasId(b.approvalHashInput) && b.hash == digest(TextOf(p)) && BoundBy(p, env) == BoundTo(b)
  {
    var p := Plans.CreatePlan(a, env).value;
    var x := Plans.PlanHasShape(a, env);
    hide Plans.CreatePlan, Plans.HexEnv, Plans.Fixed, Plans.Shape, PlanText, HashesPlanText, BoundBy;
    ShapeHashed(x, p.branchResolution, env, digest);
  }

  lemma TextsBind(b: Plans.Binding, c: Plans.Binding)
    requires HasId(b.approvalHashInput) && HasId(c.approvalHashInput)
    ensures (PlanText(OfPlan(b.approvalHashInput, b.files, b.requester))
             == PlanText(OfPlan(c.approvalHashInput, c.files, c.requester))) <==> BoundTo(b) == BoundTo(c)
  {
    PlanTextBindsEverything(OfPlan(b.approvalHashInput, b.files, b.requester),
                            OfPlan(c.approvalHashInput, c.files, c.requester));
    hide PlanText;
  }

  /** Two plans have the same hash exactly when everything bound is equal, or their texts collide. */
  lemma EqualPlanHashesExactly(a: Plans.PlanInput, b: Plans.PlanInput, env: Plans.Env, digest: Text -> string)
    requires Plans.HexEnv(env) && HashesPlanText(env, digest)
    requires Plans.CreatePlan(a, env).Ok? && Plans.CreatePlan(b, env).Ok?
    ensures var p, q := Plans.CreatePlan(a, env).value, Plans.CreatePlan(b, env).value;
            p.planHashBinding.hash == q.planHashBinding.hash <==>
            BoundBy(p, env) == BoundBy(q, env) || Collide(digest, TextOf(p), TextOf(q))
  {
    hide Plans.CreatePlan, Plans.HexEnv, PlanText, HashesPlanText, BoundBy, BoundTo, OfPlan;
    PlanHashed(a, env, digest);
    PlanHashed(b, env, digest);
    TextsBind(Plans.CreatePlan(a, env).value.planHashBinding, Plans.CreatePlan(b, env).value.planHashBinding);
  }
}
