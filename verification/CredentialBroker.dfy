/** The in-memory broker that leases credentials for a short time, and the credential health that
    operators see. */
module CredentialBroker {
  import opened Wrappers
  import opened Lists
  import opened Text
  import opened Numbers
  import Sorting

  // ---------------------------------------------------------------- credentials

  /** An optional ISO timestamp: `Date.parse` may fail on it. */
  datatype Stamp = Absent | Unreadable | At(ms: int)

  datatype CredentialStatus = Active | Disabled | RotationDue | Revoked

  datatype Credential = Credential(
    id: string, orgId: string, provider: string, status: CredentialStatus, scopeSummary: string, secretRef: string,
    expiresAt: Stamp, rotationDueAt: Stamp, connectorInstallId: Option<string>, externalAccountId: Option<string>)

  predicate LeaseableStatus(status: CredentialStatus) {
    status == Active || status == RotationDue
  }

  // ---------------------------------------------------------------- leases

  datatype LeaseStatus = LeaseActive | LeaseExpired | LeaseRevoked

  datatype CredentialRef = CredentialRef(
    credentialId: string, orgId: string, provider: string, status: CredentialStatus, scopeSummary: string,
    secretRefFingerprint: string, connectorInstallId: Option<string>, externalAccountId: Option<string>)

  datatype AuditRef = AuditRef(
    leaseId: string, credential: CredentialRef, issuedAt: int, expiresAt: int, purpose: string, scopes: seq<string>,
    status: LeaseStatus)

  datatype Lease = Lease(
    id: string, credentialId: string, orgId: string, provider: string, purpose: string, scopes: seq<string>,
    issuedAt: int, expiresAt: int, ttlMs: int, status: LeaseStatus, auditRef: AuditRef,
    requestedByPrincipalId: Option<string>, runId: Option<string>, revokedAt: Option<int>)

  datatype Stored = Stored(lease: Lease, credential: Credential, secretRef: string, credentialExpiresAtMs: Option<int>)

  datatype LeaseTarget = LeaseTarget(
    leaseId: string, credentialId: string, orgId: string, provider: string, secretRef: string, scopes: seq<string>,
    expiresAt: int, auditRef: AuditRef)

  datatype LeaseRequest = LeaseRequest(
    credential: Credential, purpose: string, scopes: Option<seq<string>>, ttlMs: Option<int>,
    requestedByPrincipalId: Option<string>, runId: Option<string>)

  /** The salted hash of the secret's location and the order of `Array.prototype.sort` are parameters. */
  datatype Options = Options(defaultTtlMs: int, maxTtlMs: int, fingerprint: seq<string> -> string,
                             order: (string, string) -> bool)

  predicate ValidOptions(o: Options) {
    0 < o.defaultTtlMs <= o.maxTtlMs <= MAX_SAFE_INTEGER
  }

  /** An empty text counts as absent. */
  function Present(value: Option<string>): Option<string> {
    if value == Some("") then None else value
  }

  function CredentialReference(c: Credential, o: Options): CredentialRef {
    CredentialRef(c.id, c.orgId, c.provider, c.status, c.scopeSummary,
                  o.fingerprint([c.orgId, c.id, c.provider, c.secretRef]), Present(c.connectorInstallId),
                  Present(c.externalAccountId))
  }

  function LeaseReference(lease: Lease, c: Credential, o: Options): AuditRef {
    AuditRef(lease.id, CredentialReference(c, o), lease.issuedAt, lease.expiresAt, lease.purpose, lease.scopes,
             lease.status)
  }

  /** The first occurrences of the scopes that are not empty. */
  function FirstScopes(scopes: seq<string>): seq<string> {
    Unique(NonEmpty(scopes))
  }

  lemma AddScope(all: seq<string>, i: nat)
    requires i < |all|
    ensures FirstScopes(all[..i + 1])
         == FirstScopes(all[..i]) + if all[i] != "" && all[i] !in FirstScopes(all[..i]) then [all[i]] else []
  {
    PrefixGrows(all, i);
    SelectSnoc(all[..i], all[i], IS_NONEMPTY);
    var before := NonEmpty(all[..i]);
    UniqueSnoc(before, all[i]);
    UniqueMembers(before);
    assert NonEmpty(all[..i + 1]) == if all[i] != "" then before + [all[i]] else before;
  }

  lemma NoScopes()
    ensures FirstScopes([]) == []
  {
  }

  function NormalizedScopes(scopes: Option<seq<string>>, o: Options): seq<string> {
    if scopes.None? then [] else Sorting.Sort(FirstScopes(Map(scopes.value, TRIMMED)), o.order)
  }

  function NormalizeOptional(value: Option<string>): Option<string> {
    if value.None? || Trim(value.value) == "" then None else Some(Trim(value.value))
  }

  function NormalizeTtlMs(ttlMs: Option<int>, o: Options): Result<int> {
    var normalized := if ttlMs.Some? then ttlMs.value else o.defaultTtlMs;
    if !(-MAX_SAFE_INTEGER <= normalized <= MAX_SAFE_INTEGER) || normalized <= 0
    then Err("ttlMs must be a positive integer.")
    else if normalized > o.maxTtlMs then Err("ttlMs cannot exceed maxTtlMs.")
    else Ok(normalized)
  }

  function ParseOptionalTimestamp(value: Stamp, field: string): Result<Option<int>> {
    match value
    case Absent => Ok(None)
    case Unreadable => Err(field + " must be an ISO timestamp.")
    case At(ms) => Ok(Some(ms))
  }

  function Earlier(a: int, b: Option<int>): int {
    if b.Some? && b.value < a then b.value else a
  }

  /** The lease that `issueLease` grants at `now`. */
  function Granted(request: LeaseRequest, id: string, now: int, o: Options): Result<Stored> {
    var c := request.credential;
    if !LeaseableStatus(c.status) then Err("Credential is not leaseable.")
    else
      var credentialExpiresAtMs :- ParseOptionalTimestamp(c.expiresAt, "credential expiresAt");
      if credentialExpiresAtMs.Some? && credentialExpiresAtMs.value <= now then Err("Credential is expired.")
      else
        var ttlMs :- NormalizeTtlMs(request.ttlMs, o);
        var expiresAt := Earlier(now + ttlMs, credentialExpiresAtMs);
        if expiresAt - now <= 0 then Err("Credential lease would expire immediately.")
        else if Trim(request.purpose) == "" then Err("purpose is required.")
        else
          var blank := Lease(id, c.id, c.orgId, c.provider, Trim(request.purpose),
                             NormalizedScopes(request.scopes, o), now, expiresAt, expiresAt - now, LeaseActive,
                             AuditRef(id, CredentialReference(c, o), now, expiresAt, Trim(request.purpose),
                                      NormalizedScopes(request.scopes, o), LeaseActive),
                             NormalizeOptional(request.requestedByPrincipalId), NormalizeOptional(request.runId), None);
          Ok(Stored(blank, c, c.secretRef, credentialExpiresAtMs))
  }

  function Referenced(s: Stored, o: Options): Stored {
    s.(lease := s.lease.(auditRef := LeaseReference(s.lease, s.credential, o)))
  }

  function Expired(s: Stored, at: int, o: Options): Stored {
    if s.lease.status == LeaseActive && s.lease.expiresAt <= at then
      Referenced(s.(lease := s.lease.(status := LeaseExpired)), o)
    else s
  }

  /** `first` and `second` are the two readings of the clock. */
  function Renewed(s: Stored, ttlMs: Option<int>, first: int, second: int, o: Options): Result<Stored> {
    if Expired(s, first, o).lease.status != LeaseActive then Err("Credential lease is not active.")
    else
      var ttl :- NormalizeTtlMs(ttlMs, o);
      var expiresAt := Earlier(second + ttl, s.credentialExpiresAtMs);
      if expiresAt <= second then Err("Credential lease would expire immediately.")
      else Ok(Referenced(s.(lease := s.lease.(expiresAt := expiresAt, ttlMs := expiresAt - second)), o))
  }

  function RevokedAt(s: Stored, first: int, second: int, o: Options): Stored {
    var e := Expired(s, first, o);
    if e.lease.status == LeaseActive
    then Referenced(e.(lease := e.lease.(status := LeaseRevoked, revokedAt := Some(second))), o) else e
  }

  function LeaseIndex(leases: seq<Stored>, id: string): (i: nat)
    ensures i <= |leases| && (i < |leases| ==> leases[i].lease.id == id)
    ensures forall j :: 0 <= j < i ==> leases[j].lease.id != id
  {
    IndexOf(leases, (s: Stored) => s.lease.id == id)
  }

  /** Stored under its id, in place of what the id named before. */
  function Put(leases: seq<Stored>, s: Stored): seq<Stored> {
    var i := LeaseIndex(leases, s.lease.id);
    if i == |leases| then leases + [s] else leases[i := s]
  }

  function Expirer(at: int, o: Options): Stored -> Stored {
    (s: Stored) => Expired(s, at, o)
  }

  function LapsesBy(at: int): Stored -> bool {
    (s: Stored) => s.lease.status == LeaseActive && s.lease.expiresAt <= at
  }

  function TargetOf(s: Stored): LeaseTarget {
    LeaseTarget(s.lease.id, s.lease.credentialId, s.lease.orgId, s.lease.provider, s.secretRef, s.lease.scopes,
                s.lease.expiresAt, s.lease.auditRef)
  }

  // ---------------------------------------------------------------- operations

  datatype Op =
    | Issue(request: LeaseRequest, freshId: string, now: int)
    | Renew(id: string, ttlMs: Option<int>, first: int, second: int)
    | Revoke(id: string, first: int, second: int)
    | Get(id: string, at: int)
    | Resolve(id: string, at: int)
    | ListActive(at: int)
    | Sweep(at: int)

  function Apply(leases: seq<Stored>, op: Op, o: Options): seq<Stored> {
    match op
    case Issue(request, id, now) =>
      var granted := Granted(request, id, now, o);
      if granted.Ok? then Put(leases, granted.value) else leases
    case Renew(id, ttlMs, first, second) =>
      var i := LeaseIndex(leases, id);
      if i == |leases| then leases
      else
        var renewed := Renewed(leases[i], ttlMs, first, second, o);
        leases[i := if renewed.Ok? then renewed.value else Expired(leases[i], first, o)]
    case Revoke(id, first, second) =>
      var i := LeaseIndex(leases, id);
      if i == |leases| then leases else leases[i := RevokedAt(leases[i], first, second, o)]
    case Get(id, at) =>
      var i := LeaseIndex(leases, id);
      if i == |leases| then leases else leases[i := Expired(leases[i], at, o)]
    case Resolve(id, at) =>
      var i := LeaseIndex(leases, id);
      if i == |leases| then leases else leases[i := Expired(leases[i], at, o)]
    case ListActive(at) => Map(leases, Expirer(at, o))
    case Sweep(at) => Map(leases, Expirer(at, o))
  }

  /** What a sweep reports: the leases that lapse by it. */
  function Swept(leases: seq<Stored>, at: int, o: Options): seq<Stored> {
    Map(Select(leases, LapsesBy(at)), Expirer(at, o))
  }

  function IsActive(): Stored -> bool {
    (s: Stored) => s.lease.status == LeaseActive
  }

  /** What is listed as active: the leases that do not lapse by then. */
  function ListedActive(leases: seq<Stored>, at: int, o: Options): seq<Stored> {
    Select(Map(leases, Expirer(at, o)), IsActive())
  }

  function Resolved(leases: seq<Stored>, id: string, at: int, o: Options): Option<LeaseTarget> {
    var i := LeaseIndex(leases, id);
    if i < |leases| && Expired(leases[i], at, o).lease.status == LeaseActive then Some(TargetOf(leases[i])) else None
  }

  class InMemoryCredentialLeaseBroker {
    const options: Options
    var leases: seq<Stored>

    constructor (options: Options)
      requires ValidOptions(options)
      ensures this.options == options && leases == []
    {
      this.options := options;
      leases := [];
    }

    /** Collects the trimmed scopes in a set, in order of first appearance. */
    method NormalizeScopes(scopes: Option<seq<string>>) returns (normalized: seq<string>)
      ensures normalized == NormalizedScopes(scopes, options)
    {
      if scopes.None? {
        return [];
      }
      NoScopes();
      hide FirstScopes, Sorting.Sort;
      var seen: seq<string> := [];
      var all := Map(scopes.value, TRIMMED);
      for i := 0 to |all|
        invariant seen == FirstScopes(all[..i])
      {
        AddScope(all, i);
        if all[i] != "" && all[i] !in seen {
          seen := seen + [all[i]];
        }
      }
      assert all[..|all|] == all;
      normalized := Sorting.Sort(seen, options.order);
    }

    method IssueLease(request: LeaseRequest, freshId: string, now: int) returns (result: Result<Lease>)
      modifies this
      ensures leases == Apply(old(leases), Issue(request, freshId, now), options)
      ensures var granted := Granted(request, freshId, now, options);
              result == if granted.Ok? then Ok(granted.value.lease) else Err(granted.error)
    {
      hide NormalizedScopes, CredentialReference, NormalizeOptional, Trim, Put;
      var c := request.credential;
      if !LeaseableStatus(c.status) {
        return Err("Credential is not leaseable.");
      }
      var credentialExpiresAtMs :- ParseOptionalTimestamp(c.expiresAt, "credential expiresAt");
      if credentialExpiresAtMs.Some? && credentialExpiresAtMs.value <= now {
        return Err("Credential is expired.");
      }
      var ttlMs :- NormalizeTtlMs(request.ttlMs, options);
      var expiresAt := Earlier(now + ttlMs, credentialExpiresAtMs);
      if expiresAt - now <= 0 {
        return Err("Credential lease would expire immediately.");
      }
      var scopes := NormalizeScopes(request.scopes);
      var purpose := Trim(request.purpose);
      if purpose == "" {
        return Err("purpose is required.");
      }
      var auditRef := AuditRef(freshId, CredentialReference(c, options), now, expiresAt, purpose, scopes, LeaseActive);
      var lease := Lease(freshId, c.id, c.orgId, c.provider, purpose, scopes, now, expiresAt, expiresAt - now,
                         LeaseActive, auditRef, NormalizeOptional(request.requestedByPrincipalId),
                         NormalizeOptional(request.runId), None);
      leases := Put(leases, Stored(lease, c, c.secretRef, credentialExpiresAtMs));
      return Ok(lease);
    }

    method ExpireIfNeeded(i: nat, at: int)
      requires i < |leases|
      modifies this
      ensures leases == old(leases)[i := Expired(old(leases)[i], at, options)]
    {
      var s := leases[i];
      if s.lease.status == LeaseActive && s.lease.expiresAt <= at {
        s := s.(lease := s.lease.(status := LeaseExpired));
        leases := leases[i := s.(lease := s.lease.(auditRef := LeaseReference(s.lease, s.credential, options)))];
      }
    }

    method RenewLease(id: string, ttlMs: Option<int>, first: int, second: int) returns (result: Result<Lease>)
      modifies this
      ensures leases == Apply(old(leases), Renew(id, ttlMs, first, second), options)
      ensures var i := LeaseIndex(old(leases), id);
              if i < |old(leases)| then
                var renewed := Renewed(old(leases)[i], ttlMs, first, second, options);
                result == (if renewed.Ok? then Ok(renewed.value.lease) else Err(renewed.error))
              else result == Err("Credential lease is not active.")
    {
      hide LeaseReference, Expired, NormalizeTtlMs, Earlier;
      var i := LeaseIndex(leases, id);
      if i == |leases| {
        return Err("Credential lease is not active.");
      }
      StillActive(leases[i], first, options);
      ExpireIfNeeded(i, first);
      if leases[i].lease.status != LeaseActive {
        return Err("Credential lease is not active.");
      }
      assert leases == old(leases);
      var s := leases[i];
      var ttl :- NormalizeTtlMs(ttlMs, options);
      var expiresAt := Earlier(second + ttl, s.credentialExpiresAtMs);
      if expiresAt <= second {
        return Err("Credential lease would expire immediately.");
      }
      s := s.(lease := s.lease.(expiresAt := expiresAt, ttlMs := expiresAt - second));
      s := s.(lease := s.lease.(auditRef := LeaseReference(s.lease, s.credential, options)));
      leases := leases[i := s];
      return Ok(s.lease);
    }

    method RevokeLease(id: string, first: int, second: int) returns (result: Option<Lease>)
      modifies this
      ensures leases == Apply(old(leases), Revoke(id, first, second), options)
      ensures var i := LeaseIndex(old(leases), id);
              result
              == if i < |old(leases)| then Some(RevokedAt(old(leases)[i], first, second, options).lease) else None
    {
      var i := LeaseIndex(leases, id);
      if i == |leases| {
        return None;
      }
      ExpireIfNeeded(i, first);
      if leases[i].lease.status == LeaseActive {
        var s := leases[i];
        s := s.(lease := s.lease.(status := LeaseRevoked, revokedAt := Some(second)));
        leases := leases[i := s.(lease := s.lease.(auditRef := LeaseReference(s.lease, s.credential, options)))];
      }
      return Some(leases[i].lease);
    }

    method ResolveLeaseTarget(id: string, at: int) returns (target: Option<LeaseTarget>)
      modifies this
      ensures leases == Apply(old(leases), Resolve(id, at), options)
      ensures target == Resolved(old(leases), id, at, options)
    {
      var i := LeaseIndex(leases, id);
      if i == |leases| {
        return None;
      }
      ExpireIfNeeded(i, at);
      if leases[i].lease.status != LeaseActive {
        return None;
      }
      return Some(TargetOf(leases[i]));
    }

    method GetLease(id: string, at: int) returns (lease: Option<Lease>)
      modifies this
      ensures leases == Apply(old(leases), Get(id, at), options)
      ensures var i := LeaseIndex(old(leases), id);
              lease == if i < |old(leases)| && Expired(old(leases)[i], at, options).lease.status == LeaseActive
                       then Some(old(leases)[i].lease) else None
    {
      var i := LeaseIndex(leases, id);
      if i == |leases| {
        return None;
      }
      ExpireIfNeeded(i, at);
      return if leases[i].lease.status == LeaseActive then Some(leases[i].lease) else None;
    }

    method ListActiveLeases(at: int) returns (active: seq<Stored>)
      modifies this
      ensures leases == Apply(old(leases), ListActive(at), options)
      ensures active == ListedActive(old(leases), at, options)
    {
      hide Expired;
      active := [];
      ghost var expired := Map(leases, Expirer(at, options));
      var i := 0;
      while i < |leases|
        invariant 0 <= i <= |leases| == |old(leases)|
        invariant forall j :: 0 <= j < i ==> leases[j] == expired[j]
        invariant forall j :: i <= j < |leases| ==> leases[j] == old(leases)[j]
        invariant active == Select(expired[..i], IsActive())
      {
        PrefixGrows(expired, i);
        SelectSnoc(expired[..i], expired[i], IsActive());
        ExpireIfNeeded(i, at);
        if leases[i].lease.status == LeaseActive {
          active := active + [leases[i]];
        }
        i := i + 1;
      }
      assert expired[..i] == expired && leases == expired;
    }

    method SweepExpired(at: int) returns (expired: seq<Stored>)
      modifies this
      ensures leases == Apply(old(leases), Sweep(at), options)
      ensures expired == Swept(old(leases), at, options)
    {
      hide Swept, Expired;
      expired := [];
      ghost var after := Map(leases, Expirer(at, options));
      SweptNone(at, options);
      var i := 0;
      while i < |leases|
        invariant 0 <= i <= |leases| == |old(leases)|
        invariant forall j :: 0 <= j < i ==> leases[j] == after[j]
        invariant forall j :: i <= j < |leases| ==> leases[j] == old(leases)[j]
        invariant expired == Swept(old(leases)[..i], at, options)
      {
        var previous := leases[i].lease.status;
        PrefixGrows(old(leases), i);
        SweptMore(old(leases)[..i], leases[i], at, options);
        ExpireIfNeeded(i, at);
        if previous == LeaseActive && leases[i].lease.status == LeaseExpired {
          expired := expired + [leases[i]];
        }
        i := i + 1;
      }
      assert old(leases)[..i] == old(leases) && leases == after;
    }
  }

  lemma SweptNone(at: int, o: Options)
    ensures Swept([], at, o) == []
  {
  }

  /** A lease is reported exactly when the sweep finds it active and leaves it expired. */
  lemma SweptMore(leases: seq<Stored>, s: Stored, at: int, o: Options)
    ensures var e := Expired(s, at, o);
            Swept(leases + [s], at, o)
            == Swept(leases, at, o)
               + if s.lease.status == LeaseActive && e.lease.status == LeaseExpired then [e] else []
  {
    SelectSnoc(leases, s, LapsesBy(at));
    hide LeaseReference;
  }

  lemma StillActive(s: Stored, at: int, o: Options)
    ensures Expired(s, at, o).lease.status == LeaseActive ==> Expired(s, at, o) == s
  {
  }

  // ---------------------------------------------------------------- what every lease keeps

  /** A lease lives between nothing and `maxTtlMs`, never longer than its credential, and its audit
      reference says the same as the lease itself. */
  ghost predicate Good(s: Stored, o: Options) {
    && 0 < s.lease.ttlMs <= o.maxTtlMs
    && (s.credentialExpiresAtMs.Some? ==> s.lease.expiresAt <= s.credentialExpiresAtMs.value)
    && s.credential.expiresAt == (if s.credentialExpiresAtMs.Some? then At(s.credentialExpiresAtMs.value) else Absent)
    && s.lease.auditRef == LeaseReference(s.lease, s.credential, o)
    && s.secretRef == s.credential.secretRef && s.lease.credentialId == s.credential.id
    && s.lease.orgId == s.credential.orgId && s.lease.provider == s.credential.provider
    && (s.lease.status == LeaseRevoked <==> s.lease.revokedAt.Some?)
  }

  ghost predicate DistinctIds(leases: seq<Stored>) {
    forall i, j :: 0 <= i < j < |leases| ==> leases[i].lease.id != leases[j].lease.id
  }

  ghost predicate Inv(leases: seq<Stored>, o: Options) {
    && (forall s :: s in leases ==> Good(s, o))
    && DistinctIds(leases)
  }

  ghost predicate Fresh(leases: seq<Stored>, op: Op) {
    op.Issue? ==> forall s :: s in leases ==> s.lease.id != op.freshId
  }

  /** The operation asks for a lease under the id. */
  predicate Reissues(op: Op, id: string) {
    op.Issue? && op.freshId == id
  }

  /** The lease under one id before and after an operation. */
  ghost predicate Kept(s: Stored, t: Stored, o: Options) {
    t.lease.id == s.lease.id && (Good(s, o) ==> Good(t, o))
  }

  /** One stored lease before and after an operation that does not replace it. */
  ghost predicate Evolves(s: Stored, t: Stored, o: Options) {
    && Kept(s, t, o)
    && (s.lease.status != LeaseActive ==> t == s)
  }

  lemma GrantedGood(request: LeaseRequest, id: string, now: int, o: Options)
    requires ValidOptions(o) && Granted(request, id, now, o).Ok?
    ensures Good(Granted(request, id, now, o).value, o) && Granted(request, id, now, o).value.lease.id == id
  {
    hide CredentialReference, NormalizedScopes, NormalizeOptional, Trim;
  }

  lemma ExpiredEvolves(s: Stored, at: int, o: Options)
    ensures Evolves(s, Expired(s, at, o), o)
  {
    hide CredentialReference;
  }

  lemma RenewedEvolves(s: Stored, ttlMs: Option<int>, first: int, second: int, o: Options)
    requires ValidOptions(o)
    ensures Renewed(s, ttlMs, first, second, o).Ok? ==> Evolves(s, Renewed(s, ttlMs, first, second, o).value, o)
  {
    hide CredentialReference;
  }

  lemma RevokedEvolves(s: Stored, first: int, second: int, o: Options)
    ensures Evolves(s, RevokedAt(s, first, second, o), o)
  {
    hide CredentialReference;
  }

  lemma PutKeeps(leases: seq<Stored>, op: Op, o: Options)
    requires ValidOptions(o) && op.Issue? && Granted(op.request, op.freshId, op.now, o).Ok?
    ensures var after := Apply(leases, op, o);
            && |leases| <= |after| <= |leases| + 1
            && (forall i :: 0 <= i < |leases| ==> Kept(leases[i], after[i], o))
            && (forall i :: 0 <= i < |leases| && !Reissues(op, leases[i].lease.id) ==> after[i] == leases[i])
            && (|after| > |leases| ==>
                  && Good(after[|leases|], o)
                  && forall i :: 0 <= i < |leases| ==> leases[i].lease.id != after[|leases|].lease.id)
  {
    GrantedGood(op.request, op.freshId, op.now, o);
    hide Granted, Good;
  }

  lemma EachEvolves(leases: seq<Stored>, op: Op, o: Options)
    requires ValidOptions(o)
    ensures var after := Apply(leases, op, o);
            && |leases| <= |after| <= |leases| + 1
            && (forall i :: 0 <= i < |leases| ==> Kept(leases[i], after[i], o))
            && (forall i :: 0 <= i < |leases| && !Reissues(op, leases[i].lease.id) ==>
                  Evolves(leases[i], after[i], o))
            && (|after| > |leases| ==>
                  && Good(after[|leases|], o)
                  && forall i :: 0 <= i < |leases| ==> leases[i].lease.id != after[|leases|].lease.id)
  {
    hide Expired, Renewed, RevokedAt, Granted, Good, Put;
    NoneChanges(leases, o);
    match op
    case Issue(request, id, now) =>
      if Granted(request, id, now, o).Ok? {
        PutKeeps(leases, op, o);
      }
    case ListActive(at) => AllExpire(leases, at, o);
    case Sweep(at) => AllExpire(leases, at, o);
    case _ => OneEvolves(leases, op, o);
  }

  /** The operations on one lease. */
  lemma OneEvolves(leases: seq<Stored>, op: Op, o: Options)
    requires ValidOptions(o) && !op.Issue? && !op.ListActive? && !op.Sweep?
    ensures var after := Apply(leases, op, o);
            |after| == |leases| && forall i :: 0 <= i < |leases| ==> Evolves(leases[i], after[i], o)
  {
    hide Expired, Renewed, RevokedAt, Granted, Good, Evolves;
    NoneChanges(leases, o);
    var i := LeaseIndex(leases, op.id);
    if i < |leases| {
      match op
      case Renew(_, ttlMs, first, second) =>
        RenewedEvolves(leases[i], ttlMs, first, second, o);
        ExpiredEvolves(leases[i], first, o);
      case Revoke(_, first, second) => RevokedEvolves(leases[i], first, second, o);
      case Get(_, at) => ExpiredEvolves(leases[i], at, o);
      case Resolve(_, at) => ExpiredEvolves(leases[i], at, o);
    }
  }

  lemma NoneChanges(leases: seq<Stored>, o: Options)
    ensures forall i :: 0 <= i < |leases| ==> Evolves(leases[i], leases[i], o)
  {
  }

  lemma AllExpire(leases: seq<Stored>, at: int, o: Options)
    ensures forall i :: 0 <= i < |leases| ==> Evolves(leases[i], Expired(leases[i], at, o), o)
  {
    forall i | 0 <= i < |leases| ensures Evolves(leases[i], Expired(leases[i], at, o), o) {
      ExpiredEvolves(leases[i], at, o);
    }
  }

  lemma IdsStayDistinct(leases: seq<Stored>, after: seq<Stored>)
    requires DistinctIds(leases) && |leases| <= |after| <= |leases| + 1
    requires forall i :: 0 <= i < |leases| ==> after[i].lease.id == leases[i].lease.id
    requires |after| > |leases| ==> forall i :: 0 <= i < |leases| ==> leases[i].lease.id != after[|leases|].lease.id
    ensures DistinctIds(after)
  {
  }

  lemma StepKeepsInv(leases: seq<Stored>, op: Op, o: Options)
    requires ValidOptions(o) && Inv(leases, o)
    ensures Inv(Apply(leases, op, o), o)
  {
    EachEvolves(leases, op, o);
    hide Apply, Good, Evolves, Reissues, DistinctIds;
    var after := Apply(leases, op, o);
    IdsStayDistinct(leases, after);
    forall i | 0 <= i < |after| ensures Good(after[i], o) {
      if i < |leases| {
        assert leases[i] in leases && Kept(leases[i], after[i], o);
      }
    }
  }

  ghost predicate ValidRun(leases: seq<Stored>, ops: seq<Op>, o: Options)
    decreases ops
  {
    ops != [] ==> Fresh(leases, ops[0]) && ValidRun(Apply(leases, ops[0], o), ops[1..], o)
  }

  function RunFrom(leases: seq<Stored>, ops: seq<Op>, o: Options): seq<Stored>
    decreases ops
  {
    if ops == [] then leases else RunFrom(Apply(leases, ops[0], o), ops[1..], o)
  }

  /** Every lease of every run is good. */
  lemma {:induction false} RunKeepsInv(leases: seq<Stored>, ops: seq<Op>, o: Options)
    requires ValidOptions(o) && Inv(leases, o)
    ensures Inv(RunFrom(leases, ops, o), o)
    decreases ops
  {
    hide Apply, Inv;
    if ops != [] {
      StepKeepsInv(leases, ops[0], o);
      RunKeepsInv(Apply(leases, ops[0], o), ops[1..], o);
    }
  }

  ghost predicate NeverReissued(ops: seq<Op>, id: string) {
    forall op :: op in ops ==> !Reissues(op, id)
  }

  /** Expired and revoked leases are never changed again, whatever else is asked of the broker than a new
      lease under their id. */
  lemma {:induction false} EndedIsFinal(leases: seq<Stored>, ops: seq<Op>, o: Options, i: nat)
    requires ValidOptions(o) && i < |leases| && leases[i].lease.status != LeaseActive
    requires NeverReissued(ops, leases[i].lease.id)
    ensures |RunFrom(leases, ops, o)| >= |leases| && RunFrom(leases, ops, o)[i] == leases[i]
    decreases ops
  {
    if ops != [] {
      EachEvolves(leases, ops[0], o);
      hide Apply;
      assert ops[0] in ops && forall op :: op in ops[1..] ==> op in ops;
      assert Evolves(leases[i], Apply(leases, ops[0], o)[i], o);
      EndedIsFinal(Apply(leases, ops[0], o), ops[1..], o, i);
    }
  }

  // ---------------------------------------------------------------- resolving

  /** A target resolves exactly while its lease is active and its expiry lies ahead; it then carries
      the lease's own data and the secret of its credential. */
  lemma ResolvesExactly(leases: seq<Stored>, o: Options, id: string, at: int)
    requires Inv(leases, o)
    ensures Resolved(leases, id, at, o).Some? <==>
              exists s :: s in leases && s.lease.id == id && s.lease.status == LeaseActive && at < s.lease.expiresAt
    ensures forall s :: s in leases && s.lease.id == id && Resolved(leases, id, at, o).Some? ==>
              Resolved(leases, id, at, o).value == TargetOf(s) && s.secretRef == s.credential.secretRef
              && s.lease.orgId == s.credential.orgId && s.lease.provider == s.credential.provider
              && (s.credential.expiresAt.At? ==> at < s.credential.expiresAt.ms)
  {
    var i := LeaseIndex(leases, id);
    forall s | s in leases && s.lease.id == id ensures i < |leases| && s == leases[i] && Good(s, o) {
      var j :| 0 <= j < |leases| && leases[j] == s;
      assert i <= j;
    }
    hide Good;
    if i < |leases| {
      assert leases[i] in leases && Good(leases[i], o);
    }
  }

  /** The clock readings of an operation, in order. */
  function Times(op: Op): (int, int) {
    match op
    case Issue(_, _, now) => (now, now)
    case Renew(_, _, first, second) => (first, second)
    case Revoke(_, first, second) => (first, second)
    case Get(_, at) => (at, at)
    case Resolve(_, at) => (at, at)
    case ListActive(at) => (at, at)
    case Sweep(at) => (at, at)
  }

  ghost predicate NotBefore(ops: seq<Op>, t: int) {
    forall op :: op in ops ==> t <= Times(op).0 <= Times(op).1
  }

  /** The lease can no longer be used at or after `t`. */
  predicate Dead(s: Stored, t: int) {
    s.lease.status != LeaseActive || s.lease.expiresAt <= t
  }

  lemma DeadStaysDead(leases: seq<Stored>, op: Op, o: Options, i: nat, t: int)
    requires ValidOptions(o) && i < |leases| && Dead(leases[i], t) && t <= Times(op).0 <= Times(op).1
    requires !Reissues(op, leases[i].lease.id)
    ensures |Apply(leases, op, o)| > i && Dead(Apply(leases, op, o)[i], t)
    ensures Apply(leases, op, o)[i].lease.id == leases[i].lease.id
  {
    hide CredentialReference, Granted, Put;
    if op.Issue? {
      if Granted(op.request, op.freshId, op.now, o).Ok? {
        PutKeeps(leases, op, o);
      }
    }
  }

  /** Once a lease has lapsed it is never usable again: from then on no operation renews it and none
      resolves it, as long as the clock does not run backwards and no new lease takes its id. */
  lemma {:induction false} LapsedForGood(leases: seq<Stored>, ops: seq<Op>, o: Options, i: nat, t: int, at: int)
    requires ValidOptions(o) && Inv(leases, o) && NotBefore(ops, t) && t <= at
    requires i < |leases| && Dead(leases[i], t) && NeverReissued(ops, leases[i].lease.id)
    ensures |RunFrom(leases, ops, o)| > i && Dead(RunFrom(leases, ops, o)[i], t)
    ensures Resolved(RunFrom(leases, ops, o), leases[i].lease.id, at, o).None?
    decreases ops
  {
    hide Apply, Inv;
    if ops == [] {
      assert leases[i] in leases;
      ResolvesExactly(leases, o, leases[i].lease.id, at);
      OnlyOne(leases, o, i);
    } else {
      assert ops[0] in ops;
      DeadStaysDead(leases, ops[0], o, i, t);
      StepKeepsInv(leases, ops[0], o);
      assert forall op :: op in ops[1..] ==> op in ops;
      LapsedForGood(Apply(leases, ops[0], o), ops[1..], o, i, t, at);
    }
  }

  lemma OnlyOne(leases: seq<Stored>, o: Options, i: nat)
    requires Inv(leases, o) && i < |leases|
    ensures forall s :: s in leases && s.lease.id == leases[i].lease.id ==> s == leases[i]
  {
  }

  // ---------------------------------------------------------------- sweeping

  /** How often the sweeps of a run report the lease with an id. */
  function Reports(leases: seq<Stored>, ops: seq<Op>, id: string, o: Options): nat
    decreases ops
  {
    if ops == [] then 0
    else
      (if ops[0].Sweep? && exists s :: s in Swept(leases, ops[0].at, o) && s.lease.id == id then 1 else 0)
      + Reports(Apply(leases, ops[0], o), ops[1..], id, o)
  }

  lemma SweptAreLapsed(leases: seq<Stored>, at: int, o: Options, id: string)
    ensures (exists s :: s in Swept(leases, at, o) && s.lease.id == id) <==>
              exists s :: s in leases && s.lease.id == id && LapsesBy(at)(s)
  {
    var lapsed := Select(leases, LapsesBy(at));
    SelectMembers(leases, LapsesBy(at));
    if s :| s in lapsed && s.lease.id == id {
      var i :| 0 <= i < |lapsed| && lapsed[i] == s;
      assert Swept(leases, at, o)[i] == Expired(s, at, o) && Swept(leases, at, o)[i] in Swept(leases, at, o);
    }
    if s :| s in Swept(leases, at, o) && s.lease.id == id {
      var i :| 0 <= i < |lapsed| && Swept(leases, at, o)[i] == s;
      assert lapsed[i] in lapsed && s == Expired(lapsed[i], at, o);
    }
  }

  lemma FreshReissuesNone(leases: seq<Stored>, op: Op, i: nat)
    requires Fresh(leases, op) && i < |leases|
    ensures !Reissues(op, leases[i].lease.id)
  {
    assert leases[i] in leases;
  }

  lemma {:induction false} EndedIsNotReported(leases: seq<Stored>, ops: seq<Op>, o: Options, i: nat)
    requires ValidOptions(o) && Inv(leases, o) && ValidRun(leases, ops, o)
    requires i < |leases| && leases[i].lease.status != LeaseActive
    ensures Reports(leases, ops, leases[i].lease.id, o) == 0
    decreases ops
  {
    hide Apply, Inv, Fresh, Swept;
    if ops != [] {
      OnlyOne(leases, o, i);
      if ops[0].Sweep? {
        SweptAreLapsed(leases, ops[0].at, o, leases[i].lease.id);
      }
      EachEvolves(leases, ops[0], o);
      FreshReissuesNone(leases, ops[0], i);
      assert Evolves(leases[i], Apply(leases, ops[0], o)[i], o);
      StepKeepsInv(leases, ops[0], o);
      EndedIsNotReported(Apply(leases, ops[0], o), ops[1..], o, i);
    }
  }

  /** The sweeps of a run under new ids report every lease at most once. */
  lemma {:induction false} ReportedAtMostOnce(leases: seq<Stored>, ops: seq<Op>, o: Options, id: string)
    requires ValidOptions(o) && Inv(leases, o) && ValidRun(leases, ops, o)
    ensures Reports(leases, ops, id, o) <= 1
    decreases ops
  {
    hide Apply, Inv, Fresh, Swept;
    if ops != [] {
      StepKeepsInv(leases, ops[0], o);
      ReportedAtMostOnce(Apply(leases, ops[0], o), ops[1..], o, id);
      if ops[0].Sweep? {
        SweptAreLapsed(leases, ops[0].at, o, id);
        if s :| s in leases && s.lease.id == id && LapsesBy(ops[0].at)(s) {
          var i :| 0 <= i < |leases| && leases[i] == s;
          SweepEnds(leases, ops[0].at, o, i);
          EndedIsNotReported(Apply(leases, ops[0], o), ops[1..], o, i);
        }
      }
    }
  }

  lemma SweepEnds(leases: seq<Stored>, at: int, o: Options, i: nat)
    requires i < |leases| && LapsesBy(at)(leases[i])
    ensures |Apply(leases, Sweep(at), o)| == |leases| && Apply(leases, Sweep(at), o)[i].lease.status == LeaseExpired
    ensures Apply(leases, Sweep(at), o)[i].lease.id == leases[i].lease.id
  {
  }

  // ---------------------------------------------------------------- health

  datatype HealthState =
    | HealthActive | HealthDisabled | HealthRotationDue | HealthRevoked | HealthExpired | MissingScopes

  datatype Health = Health(state: HealthState, leaseable: bool, missingScopes: seq<string>)

  predicate IsSeparator(c: char) {
    IsSpace(c) || c == ','
  }

  /** The parts of a scope summary between white space and commas. */
  function SummaryParts(summary: string): (parts: seq<string>)
    ensures parts != []
  {
    if summary == "" then [""]
    else
      var rest := SummaryParts(summary[1..]);
      if IsSeparator(summary[0]) then [""] + rest else [[summary[0]] + rest[0]] + rest[1..]
  }

  function Advertised(summary: string): seq<string> {
    FirstScopes(Map(SummaryParts(summary), TRIMMED))
  }

  function NotIn(scopes: seq<string>): string -> bool {
    (scope: string) => scope !in scopes
  }

  function ComputeMissingScopes(summary: string, required: seq<string>, o: Options): seq<string> {
    Sorting.Sort(Unique(Select(NonEmpty(Map(required, TRIMMED)), NotIn(Advertised(summary)))), o.order)
  }

  function DeriveCredentialHealth(c: Credential, now: int, required: seq<string>, o: Options): Result<Health> {
    if c.status == Revoked then Ok(Health(HealthRevoked, false, []))
    else if c.status == Disabled then Ok(Health(HealthDisabled, false, []))
    else
      var expiresAt :- ParseOptionalTimestamp(c.expiresAt, "credential expiresAt");
      if expiresAt.Some? && expiresAt.value <= now then Ok(Health(HealthExpired, false, []))
      else
        var missing := ComputeMissingScopes(c.scopeSummary, required, o);
        if missing != [] then Ok(Health(MissingScopes, false, missing))
        else
          var rotationDueAt :- ParseOptionalTimestamp(c.rotationDueAt, "credential rotationDueAt");
          if (rotationDueAt.Some? && rotationDueAt.value <= now) || c.status == RotationDue
          then Ok(Health(HealthRotationDue, true, []))
          else Ok(Health(HealthActive, true, []))
  }

  predicate HealthLeaseable(c: Credential, now: int, required: seq<string>, o: Options) {
    var health := DeriveCredentialHealth(c, now, required, o);
    health.Ok? && health.value.leaseable
  }

  /** What a caller can read off a credential: neither disabled nor revoked nor past its expiry. */
  predicate Usable(c: Credential, now: int) {
    && LeaseableStatus(c.status) && !c.expiresAt.Unreadable?
    && (c.expiresAt.At? ==> now < c.expiresAt.ms)
  }

  /** With a valid ttl and a purpose, a lease is issued exactly for a usable credential. That is what
      health without required scopes calls leaseable, except when the credential is usable but its
      rotation date cannot be read: then a lease is issued although health fails. */
  lemma IssueAgreesExactly(request: LeaseRequest, id: string, now: int, o: Options)
    requires ValidOptions(o) && NormalizeTtlMs(request.ttlMs, o).Ok? && Trim(request.purpose) != ""
    ensures Granted(request, id, now, o).Ok? <==> Usable(request.credential, now)
    ensures (Granted(request, id, now, o).Ok? <==> HealthLeaseable(request.credential, now, [], o))
       <==> !(Usable(request.credential, now) && request.credential.rotationDueAt.Unreadable?)
  {
    NothingMissing(request.credential.scopeSummary, o);
    hide CredentialReference, NormalizedScopes, NormalizeOptional, Trim, ComputeMissingScopes;
  }

  lemma NothingMissing(summary: string, o: Options)
    ensures ComputeMissingScopes(summary, [], o) == []
  {
    assert Map([], TRIMMED) == [];
  }

  /** With required scopes, health is leaseable exactly when it is without them and the summary
      advertises every required scope that is not blank. */
  lemma RequiredScopesExactly(c: Credential, now: int, required: seq<string>, o: Options)
    ensures HealthLeaseable(c, now, required, o) <==>
              HealthLeaseable(c, now, [], o)
              && forall scope :: scope in required && Trim(scope) != "" ==> Trim(scope) in Advertised(c.scopeSummary)
  {
    NothingMissing(c.scopeSummary, o);
    MissingExactly(c.scopeSummary, required, o);
    hide ComputeMissingScopes, Advertised, Trim;
  }

  lemma MissingExactly(summary: string, required: seq<string>, o: Options)
    ensures ComputeMissingScopes(summary, required, o) == [] <==>
              forall scope :: scope in required && Trim(scope) != "" ==> Trim(scope) in Advertised(summary)
  {
    var trimmed := Map(required, TRIMMED);
    var missing := Select(NonEmpty(trimmed), NotIn(Advertised(summary)));
    SelectMembers(trimmed, IS_NONEMPTY);
    SelectMembers(NonEmpty(trimmed), NotIn(Advertised(summary)));
    SortedEmpty(missing, o);
    hide Advertised, Trim, Unique, Sorting.Sort, Select;
    assert missing == [] <==> forall x :: x !in missing by {
      assert missing != [] ==> missing[0] in missing;
    }
    assert |trimmed| == |required| && forall i :: 0 <= i < |required| ==> trimmed[i] == Trim(required[i]);
    forall scope | scope in required ensures Trim(scope) in trimmed {
      var i :| 0 <= i < |required| && required[i] == scope;
      assert trimmed[i] == Trim(scope);
    }
    forall t | t in trimmed ensures exists scope :: scope in required && Trim(scope) == t {
      var i :| 0 <= i < |trimmed| && trimmed[i] == t;
      assert required[i] in required && Trim(required[i]) == t;
    }
  }

  lemma SortedEmpty(scopes: seq<string>, o: Options)
    ensures Sorting.Sort(Unique(scopes), o.order) == [] <==> scopes == []
  {
    UniqueMembers(scopes);
    Sorting.SortPermutes(Unique(scopes), o.order);
    assert scopes != [] ==> scopes[0] in scopes && scopes[0] in Unique(scopes);
  }
}
