/** Grant selection: which capability grant decides a request, and what that grant means. */
module Policy {
  import opened Wrappers
  import opened Sorting

  datatype Capability =
    | SlackRead | SlackWrite | GitHubRead | GitHubBranch | GitHubPr
    | LinearRead | LinearWrite | McpTool | SandboxExec | ModelCall

  datatype Risk = ReadInternal | WriteDraft | WriteExternal | Privileged
  datatype Decision = Allow | Ask | Deny

  datatype Grant = Grant(
    id: string, capability: Capability, resource: string, decision: Decision, risk: Risk, requiresApproval: bool)

  datatype Bundle = Bundle(
    id: string, orgId: string, name: string, description: string,
    attachedPlaceIds: seq<string>, grants: seq<Grant>, budgetPolicyId: string)

  datatype Request = Request(placeScopeId: string, capability: Capability, resource: Option<string>)

  datatype PolicyDecision = PolicyDecision(
    decision: Decision, risk: Risk, requiresApproval: bool, matchingGrant: Option<Grant>)

  /** An absent resource and an empty one are the same to the source's `!requestedResource`. */
  function Asked(request: Request): Option<string> {
    if request.resource == Some("") then None else request.resource
  }

  predicate EndsWithStar(pattern: string) {
    pattern != [] && pattern[|pattern| - 1] == '*'
  }

  predicate ResourceMatches(pattern: string, asked: Option<string>) {
    match asked
    case None => pattern == "*"
    case Some(resource) =>
      || pattern == resource
      || pattern == "*"
      || (EndsWithStar(pattern) && pattern[..|pattern| - 1] <= resource)
  }

  function SpecificityScore(pattern: string, asked: Option<string>): int {
    match asked
    case None => if pattern == "*" then 1 else 0
    case Some(resource) =>
      if pattern == resource then 1000
      else if EndsWithStar(pattern) then |pattern|
      else if pattern == "*" then 1
      else 0
  }

  function BundlesForPlace(bundles: seq<Bundle>, placeId: string): seq<Bundle> {
    if bundles == [] then []
    else
      (if placeId in bundles[0].attachedPlaceIds then [bundles[0]] else []) + BundlesForPlace(bundles[1..], placeId)
  }

  function GrantsOf(bundles: seq<Bundle>): seq<Grant> {
    if bundles == [] then [] else bundles[0].grants + GrantsOf(bundles[1..])
  }

  predicate Matches(grant: Grant, request: Request) {
    grant.capability == request.capability && ResourceMatches(grant.resource, Asked(request))
  }

  function Matching(grants: seq<Grant>, request: Request): seq<Grant> {
    if grants == [] then []
    else (if Matches(grants[0], request) then [grants[0]] else []) + Matching(grants[1..], request)
  }

  function MoreSpecificFirst(request: Request): (Grant, Grant) -> bool {
    (g: Grant, h: Grant) =>
      SpecificityScore(h.resource, Asked(request)) - SpecificityScore(g.resource, Asked(request)) <= 0
  }

  function FirstDeny(grants: seq<Grant>): Option<Grant> {
    if grants == [] then None
    else if grants[0].decision == Deny then Some(grants[0])
    else FirstDeny(grants[1..])
  }

  function Evaluate(grants: seq<Grant>, request: Request): PolicyDecision {
    var ranked := Sort(Matching(grants, request), MoreSpecificFirst(request));
    if ranked == [] then PolicyDecision(Deny, Privileged, false, None)
    else
      match FirstDeny(ranked)
      case Some(grant) => PolicyDecision(Deny, grant.risk, false, Some(grant))
      case None =>
        var grant := ranked[0];
        PolicyDecision(grant.decision, grant.risk, grant.requiresApproval || grant.decision == Ask, Some(grant))
  }

  function EvaluatePolicy(bundles: seq<Bundle>, request: Request): PolicyDecision {
    Evaluate(GrantsOf(bundles), request)
  }

  // ---------------------------------------------------------------- what the verdict means

  /** No two grants speak about the same capability and resource pattern. */
  ghost predicate DistinctGrants(grants: seq<Grant>) {
    forall g, h :: g in grants && h in grants && g.capability == h.capability && g.resource == h.resource ==> g == h
  }

  /** The documented rule: an exact pattern beats any wildcard, a longer wildcard a shorter one. */
  predicate NoLessSpecific(g: Grant, h: Grant, request: Request) {
    match Asked(request)
    case None => true
    case Some(resource) => g.resource == resource || (h.resource != resource && |g.resource| >= |h.resource|)
  }

  /** `g` governs the request: denials come first, and among equals the most specific pattern. */
  ghost predicate Governs(g: Grant, grants: seq<Grant>, request: Request) {
    && g in grants && Matches(g, request)
    && forall h :: h in grants && Matches(h, request) ==>
         if g.decision == Deny then h.decision == Deny ==> NoLessSpecific(g, h, request)
         else h.decision != Deny && NoLessSpecific(g, h, request)
  }

  lemma {:induction false} MatchingMembers(grants: seq<Grant>, request: Request, g: Grant)
    ensures g in Matching(grants, request) <==> g in grants && Matches(g, request)
  {
    if grants != [] {
      MatchingMembers(grants[1..], request, g);
    }
  }

  lemma MoreSpecificFirstIsPreorder(request: Request)
    ensures TotalPreorder(MoreSpecificFirst(request))
  {
  }

  /** Up to 998 characters an exact match outscores every wildcard, so scores follow the rule. */
  lemma ScoresFollowTheRule(g: Grant, h: Grant, request: Request)
    requires Matches(g, request) && Matches(h, request)
    requires Asked(request).Some? ==> |Asked(request).value| <= 998
    ensures MoreSpecificFirst(request)(g, h) <==> NoLessSpecific(g, h, request)
    ensures MoreSpecificFirst(request)(g, h) && MoreSpecificFirst(request)(h, g) ==> g.resource == h.resource
  {
    if Asked(request).Some? {
      var resource := Asked(request).value;
      if g.resource != resource {
        WildcardIsPrefix(g.resource, resource);
      }
      if h.resource != resource {
        WildcardIsPrefix(h.resource, resource);
      }
    }
  }

  lemma WildcardIsPrefix(pattern: string, resource: string)
    requires ResourceMatches(pattern, Some(resource)) && pattern != resource
    ensures EndsWithStar(pattern) && |pattern| - 1 <= |resource|
    ensures pattern == resource[..|pattern| - 1] + "*"
  {
    var stem := pattern[..|pattern| - 1];
    assert pattern == stem + "*";
  }

  lemma {:induction false} FirstDenyIsFirst(grants: seq<Grant>, le: (Grant, Grant) -> bool)
    requires Sorted(grants, le)
    ensures FirstDeny(grants).None? ==> forall g :: g in grants ==> g.decision != Deny
    ensures FirstDeny(grants).Some? ==>
              var d := FirstDeny(grants).value;
              d in grants && d.decision == Deny && forall g :: g in grants && g.decision == Deny ==> g == d || le(d, g)
  {
    if grants != [] && grants[0].decision != Deny {
      FirstDenyIsFirst(grants[1..], le);
    }
  }

  /** The verdict is the governing grant's, for every set of distinct grants and every request for a
      resource of at most 998 characters. */
  lemma VerdictIsGoverningGrant(grants: seq<Grant>, request: Request, g: Grant)
    requires DistinctGrants(grants)
    requires Asked(request).Some? ==> |Asked(request).value| <= 998
    ensures Evaluate(grants, request).matchingGrant == Some(g) <==> Governs(g, grants, request)
  {
    var le := MoreSpecificFirst(request);
    var matching := Matching(grants, request);
    var ranked := Sort(matching, le);
    MoreSpecificFirstIsPreorder(request);
    SortSorts(matching, le);
    SortMembers(matching, le);
    FirstDenyIsFirst(ranked, le);
    forall h ensures h in ranked <==> h in grants && Matches(h, request) {
      MatchingMembers(grants, request, h);
    }
    forall x, y | x in ranked && y in ranked
      ensures le(x, y) <==> NoLessSpecific(x, y, request)
      ensures le(x, y) && le(y, x) ==> x == y
    {
      ScoresFollowTheRule(x, y, request);
    }
  }

  ghost predicate RuleHoldsFor(request: Request) {
    forall grants, g ::
      DistinctGrants(grants) ==> (Evaluate(grants, request).matchingGrant == Some(g) <==> Governs(g, grants, request))
  }

  /** 998 characters is exactly the bound: beyond it some wildcard scores at least as much as an
      exact match. */
  lemma RuleHoldsExactlyTo998(request: Request)
    ensures RuleHoldsFor(request) <==> (Asked(request).Some? ==> |Asked(request).value| <= 998)
  {
    if Asked(request).Some? && |Asked(request).value| > 998 {
      var resource := Asked(request).value;
      var exact := Grant("exact", request.capability, resource, Allow, ReadInternal, false);
      var wild := Grant("wild", request.capability, resource + "*", Ask, ReadInternal, true);
      assert Matches(wild, request) by { assert wild.resource[..|wild.resource| - 1] == resource; }
      EvaluatePair(wild, exact, request);
      assert !Governs(wild, [wild, exact], request) by {
        assert exact in [wild, exact] && !NoLessSpecific(wild, exact, request);
      }
      assert DistinctGrants([wild, exact]);
    } else {
      forall grants, g | DistinctGrants(grants)
        ensures Evaluate(grants, request).matchingGrant == Some(g) <==> Governs(g, grants, request)
      {
        VerdictIsGoverningGrant(grants, request, g);
      }
    }
  }

  /** Two matching grants that allow: the first listed wins unless the second scores strictly more. */
  lemma EvaluatePair(g: Grant, h: Grant, request: Request)
    requires Matches(g, request) && Matches(h, request) && g.decision != Deny && h.decision != Deny
    ensures Evaluate([g, h], request).matchingGrant ==
            Some(if MoreSpecificFirst(request)(g, h) then g else h)
  {
    var le := MoreSpecificFirst(request);
    assert [g, h][1..] == [h] && [h][1..] == [] && [g][1..] == [] && [h, g][1..] == [g];
    assert Matching([h], request) == [h];
    assert Matching([g, h], request) == [g, h];
    assert Sort([h], le) == [h];
    assert Insert(g, [h], le) == if le(g, h) then [g, h] else [h, g] by {
      assert Insert(g, [], le) == [g];
    }
    assert Sort([g, h], le) == if le(g, h) then [g, h] else [h, g];
    assert FirstDeny([g]) == None && FirstDeny([h]) == None;
    assert FirstDeny([g, h]) == None && FirstDeny([h, g]) == None;
  }

  // ---------------------------------------------------------------- when order is immaterial

  /** The one wildcard that scores the same as an exact match. */
  predicate TiesWithExact(resource: string) {
    |resource| >= 999 && resource[..999] + "*" != resource
  }

  ghost predicate OrderImmaterialFor(request: Request) {
    forall s, t :: DistinctGrants(s) && multiset(s) == multiset(t) ==> Evaluate(s, request) == Evaluate(t, request)
  }

  lemma DistinctScores(g: Grant, h: Grant, request: Request)
    requires Matches(g, request) && Matches(h, request)
    requires Asked(request).Some? ==> !TiesWithExact(Asked(request).value)
    requires MoreSpecificFirst(request)(g, h) && MoreSpecificFirst(request)(h, g)
    ensures g.resource == h.resource
  {
    if Asked(request).Some? {
      var resource := Asked(request).value;
      if g.resource != resource {
        WildcardIsPrefix(g.resource, resource);
      }
      if h.resource != resource {
        WildcardIsPrefix(h.resource, resource);
      }
    }
  }

  lemma MatchingPermutes(s: seq<Grant>, t: seq<Grant>, request: Request)
    requires multiset(s) == multiset(t)
    ensures multiset(Matching(s, request)) == multiset(Matching(t, request))
  {
    forall g ensures multiset(Matching(s, request))[g] == multiset(Matching(t, request))[g] {
      MatchingCount(s, request, g);
      MatchingCount(t, request, g);
    }
  }

  lemma {:induction false} MatchingCount(s: seq<Grant>, request: Request, g: Grant)
    ensures multiset(Matching(s, request))[g] == if Matches(g, request) then multiset(s)[g] else 0
  {
    if s != [] {
      assert s == [s[0]] + s[1..];
      MatchingCount(s[1..], request, g);
    }
  }

  /** Listing distinct grants in another order never changes the decision. */
  lemma OrderImmaterial(s: seq<Grant>, t: seq<Grant>, request: Request)
    requires DistinctGrants(s) && multiset(s) == multiset(t)
    requires Asked(request).Some? ==> !TiesWithExact(Asked(request).value)
    ensures Evaluate(s, request) == Evaluate(t, request)
  {
    var le := MoreSpecificFirst(request);
    MatchingPermutes(s, t, request);
    MoreSpecificFirstIsPreorder(request);
    var matching := Matching(s, request);
    forall x, y | x in matching && y in matching && le(x, y) && le(y, x) ensures x == y {
      MatchingMembers(s, request, x);
      MatchingMembers(s, request, y);
      DistinctScores(x, y, request);
    }
    SortForgetsOrder(matching, Matching(t, request), le);
  }

  /** Exactly: order is immaterial unless the resource has 999 characters or more and its
      1000-character wildcard is not the resource itself. */
  lemma OrderImmaterialExactly(request: Request)
    ensures OrderImmaterialFor(request) <==> (Asked(request).Some? ==> !TiesWithExact(Asked(request).value))
  {
    if Asked(request).Some? && TiesWithExact(Asked(request).value) {
      var resource := Asked(request).value;
      var exact := Grant("exact", request.capability, resource, Allow, ReadInternal, false);
      var wild := Grant("wild", request.capability, resource[..999] + "*", Ask, ReadInternal, true);
      assert Matches(wild, request) by { assert wild.resource[..999] == resource[..999]; }
      EvaluatePair(wild, exact, request);
      EvaluatePair(exact, wild, request);
      assert DistinctGrants([wild, exact]);
      assert multiset([wild, exact]) == multiset([exact, wild]);
    } else {
      forall s, t | DistinctGrants(s) && multiset(s) == multiset(t)
        ensures Evaluate(s, request) == Evaluate(t, request)
      {
        OrderImmaterial(s, t, request);
      }
    }
  }
}
