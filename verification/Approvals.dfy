/** Runs and their approvals: `createRun` and `decideApproval` of the control-plane store. */
module Approvals {
  import opened Wrappers
  import opened Lists
  import opened Numbers
  import opened Policy
  import Sorting

  // ---------------------------------------------------------------- the store

  datatype RunStatus = Queued | AwaitingApproval | Completed | Failed | Cancelled

  datatype Run = Run(
    id: string, orgId: string, requesterPrincipalId: string, placeScopeId: string, prompt: string,
    capability: Option<Capability>, status: RunStatus, modelPolicyId: string, runtimeProfileId: string,
    estimatedCostCents: int, actualCostCents: int)

  datatype ApprovalStatus = Pending | Approved | Denied | Expired

  /** A time in milliseconds, or a text that `Date.parse` cannot read. */
  type Instant = Option<int>

  datatype Approval = Approval(
    id: string, orgId: string, runId: string, risk: Risk, status: ApprovalStatus, payloadHash: string,
    requestedByPrincipalId: string, decidedByPrincipalId: Option<string>, decidedAt: Option<Instant>, expiresAt: int)

  datatype PrincipalKind = Human | Service | AgentPrincipal
  datatype Principal = Principal(id: string, orgId: string, kind: PrincipalKind)

  datatype ModelPolicy = ModelPolicy(id: string, perRunBudgetCents: int)

  datatype CapabilityKind = Coding | Workflow | Answer | OtherKind

  datatype CapabilityProfile = CapabilityProfile(
    orgId: string, agentId: string, enabled: bool, capabilityKind: CapabilityKind, modelPolicyId: string,
    runtimeProfileId: string)

  /** The parts of the snapshot that these two operations only read. */
  datatype Settings = Settings(
    orgId: string, agentId: string, defaultModelPolicyId: string, defaultRuntimeProfileId: string,
    modelPolicies: seq<ModelPolicy>, runtimeProfiles: seq<string>, capabilityProfiles: seq<CapabilityProfile>,
    places: seq<string>, principals: seq<Principal>, accessBundles: seq<Bundle>)

  /** `changes` counts the snapshots handed to persistence. */
  datatype Store = Store(runs: seq<Run>, approvals: seq<Approval>, changes: nat)

  const APPROVAL_LIFETIME_MS := 30 * 60 * 1000

  // ---------------------------------------------------------------- profiles and estimates

  function CapabilityKindFor(capability: Option<Capability>): CapabilityKind {
    match capability
    case Some(GitHubRead) | Some(GitHubBranch) | Some(GitHubPr) | Some(SandboxExec) => Coding
    case Some(LinearRead) | Some(LinearWrite) | Some(McpTool) => Workflow
    case _ => Answer
  }

  function FindCapabilityProfile(settings: Settings, kind: CapabilityKind): Option<CapabilityProfile> {
    var i := IndexOf(settings.capabilityProfiles, (p: CapabilityProfile) =>
      p.orgId == settings.orgId && p.agentId == settings.agentId && p.enabled && p.capabilityKind == kind);
    if i < |settings.capabilityProfiles| then Some(settings.capabilityProfiles[i]) else None
  }

  datatype RunProfiles = RunProfiles(modelPolicy: ModelPolicy, runtimeProfileId: string)

  function ResolveRunProfiles(settings: Settings, capability: Option<Capability>): Result<RunProfiles> {
    var profile := FindCapabilityProfile(settings, CapabilityKindFor(capability));
    var modelPolicyId := if profile.Some? then profile.value.modelPolicyId else settings.defaultModelPolicyId;
    var runtimeProfileId := if profile.Some? then profile.value.runtimeProfileId else settings.defaultRuntimeProfileId;
    var i := IndexOf(settings.modelPolicies, (p: ModelPolicy) => p.id == modelPolicyId);
    if i == |settings.modelPolicies| then Err("Model policy not found.")
    else if runtimeProfileId !in settings.runtimeProfiles then Err("Runtime profile not found.")
    else Ok(RunProfiles(settings.modelPolicies[i], runtimeProfileId))
  }

  function EstimatePromptCostCents(prompt: string, modelPolicy: ModelPolicy): int {
    var roughCents := Max(1, CeilDiv(CeilDiv(|prompt|, 4), 1000));
    if roughCents < modelPolicy.perRunBudgetCents then roughCents else modelPolicy.perRunBudgetCents
  }

  // ---------------------------------------------------------------- createRun

  /** `payloadHash` is the hash of the approval payload, or the error that the caller's payload
      function throws. */
  datatype CreateRunInput = CreateRunInput(
    prompt: string, placeScopeId: string, requesterPrincipalId: Option<string>, capability: Option<Capability>,
    resource: Option<string>, worker: bool, payloadHash: Result<string>, deferApproval: bool)

  const DEFAULT_REQUESTER := "principal_bryson"

  function Requester(input: CreateRunInput): string {
    if input.requesterPrincipalId.Some? then input.requesterPrincipalId.value else DEFAULT_REQUESTER
  }

  function Verdict(settings: Settings, input: CreateRunInput): Option<PolicyDecision> {
    if input.capability.None? then None
    else Some(EvaluatePolicy(BundlesForPlace(settings.accessBundles, input.placeScopeId),
                             Request(input.placeScopeId, input.capability.value, input.resource)))
  }

  function NewRun(settings: Settings, input: CreateRunInput, profiles: RunProfiles, id: string): Run {
    Run(id, settings.orgId, Requester(input), input.placeScopeId, input.prompt, input.capability, Queued,
        profiles.modelPolicy.id, profiles.runtimeProfileId,
        EstimatePromptCostCents(input.prompt, profiles.modelPolicy), 0)
  }

  function NewApproval(settings: Settings, run: Run, risk: Risk, payloadHash: string, id: string, now: int): Approval {
    Approval(id, settings.orgId, run.id, risk, Pending, payloadHash, run.requesterPrincipalId, None, None,
             now + APPROVAL_LIFETIME_MS)
  }

  /** What becomes of a new run: `None` asks for approval. */
  function FirstStatus(verdict: Option<PolicyDecision>, worker: bool, deferApproval: bool): Option<RunStatus> {
    if verdict.None? then Some(Queued)
    else if verdict.value.decision == Deny then Some(Failed)
    else if verdict.value.requiresApproval then (if deferApproval && worker then Some(Queued) else None)
    else if worker then Some(Queued)
    else Some(Completed)
  }

  /** The result and the store after `createRun`; `runId` and `approvalId` are the fresh ids. */
  function CreateRunStep(s: Store, settings: Settings, input: CreateRunInput, runId: string, approvalId: string,
                         now: int)
    : (Result<Run>, Store)
  {
    var profiles := ResolveRunProfiles(settings, input.capability);
    if profiles.Err? then (Err(profiles.error), s)
    else if input.placeScopeId !in settings.places then (Err("Unknown place scope."), s)
    else
      var run := NewRun(settings, input, profiles.value, runId);
      var verdict := Verdict(settings, input);
      var first := FirstStatus(verdict, input.worker, input.deferApproval);
      if first.None? && input.payloadHash.Err? then
        (Err(input.payloadHash.error), s.(runs := [run] + s.runs))
      else if first.None? then
        var waiting := run.(status := AwaitingApproval);
        var approval := NewApproval(settings, run, verdict.value.risk, input.payloadHash.value, approvalId, now);
        (Ok(waiting), Store([waiting] + s.runs, [approval] + s.approvals, s.changes + 1))
      else
        var settled := run.(
          status := first.value,
          actualCostCents := if first.value == Completed then Max(1, run.estimatedCostCents - 1) else 0);
        (Ok(settled), Store([settled] + s.runs, s.approvals, s.changes + 1))
  }

  // ---------------------------------------------------------------- decideApproval

  datatype DecisionInput = DecisionInput(principalId: string, payloadHash: string, now: Instant, worker: bool)

  /** Comparing with an unreadable date is always false. */
  predicate Lapsed(expiresAt: int, now: Instant) {
    now.Some? && expiresAt <= now.value
  }

  function FindActor(principals: seq<Principal>, principalId: string, orgId: string): Option<Principal> {
    var i := IndexOf(principals, (p: Principal) => p.id == principalId && p.orgId == orgId);
    if i < |principals| then Some(principals[i]) else None
  }

  predicate Guarded(risk: Risk) {
    risk == WriteExternal || risk == Privileged
  }

  /** Why an actor may not decide, if so. */
  function ActorRefusal(settings: Settings, approval: Approval, principalId: string): Option<string> {
    var actor := FindActor(settings.principals, principalId, approval.orgId);
    if actor.None? then Some("Approval actor not found.")
    else if actor.value.kind != Human then Some("Approval actor must be a human principal.")
    else if actor.value.id == approval.requestedByPrincipalId && Guarded(approval.risk) then
      Some("Requester cannot self-approve write or privileged actions.")
    else None
  }

  function DecidedRun(run: Run, approve: bool, worker: bool): Run {
    if approve && worker then run.(status := Queued)
    else run.(status := if approve then Completed else Cancelled,
              actualCostCents := if approve then Max(1, run.estimatedCostCents) else 0)
  }

  function ApprovalIndex(approvals: seq<Approval>, id: string): (i: nat)
    ensures i <= |approvals| && (i < |approvals| ==> approvals[i].id == id)
    ensures forall j :: 0 <= j < i ==> approvals[j].id != id
  {
    IndexOf(approvals, (a: Approval) => a.id == id)
  }

  function RunIndex(runs: seq<Run>, id: string): (i: nat)
    ensures i <= |runs| && (i < |runs| ==> runs[i].id == id)
    ensures forall j :: 0 <= j < i ==> runs[j].id != id
  {
    IndexOf(runs, (r: Run) => r.id == id)
  }

  function DecideApprovalStep(s: Store, settings: Settings, approvalId: string, approve: bool, input: DecisionInput)
    : (Result<Approval>, Store)
  {
    var i := ApprovalIndex(s.approvals, approvalId);
    if i == |s.approvals| then (Err("Approval not found."), s)
    else
      var approval := s.approvals[i];
      if approval.status != Pending then (Err("Approval is no longer pending."), s)
      else if approval.payloadHash != input.payloadHash then
        (Err("Approval payload hash does not match the pending request."), s)
      else if Lapsed(approval.expiresAt, input.now) then
        (Err("Approval has expired."),
         s.(approvals := s.approvals[i := approval.(status := Expired, decidedAt := Some(input.now))]))
      else if ActorRefusal(settings, approval, input.principalId).Some? then
        (Err(ActorRefusal(settings, approval, input.principalId).value), s)
      else
        var decided := approval.(status := if approve then Approved else Denied,
                                 decidedByPrincipalId := Some(input.principalId), decidedAt := Some(input.now));
        var k := RunIndex(s.runs, approval.runId);
        var runs := if k == |s.runs| then s.runs else s.runs[k := DecidedRun(s.runs[k], approve, input.worker)];
        (Ok(decided), Store(runs, s.approvals[i := decided], s.changes + 1))
  }

  /** The clock text could be read and lies before the expiry. */
  predicate BeforeExpiry(expiresAt: int, now: Instant) {
    now.Some? && now.value < expiresAt
  }

  /** A decision is accepted exactly when it is on a pending approval, with its hash, by an entitled
      actor, and at a time before the expiry or at one that cannot be read. */
  lemma DecisionAcceptedExactly(s: Store, settings: Settings, approvalId: string, approve: bool, input: DecisionInput)
    ensures var i := ApprovalIndex(s.approvals, approvalId);
            DecideApprovalStep(s, settings, approvalId, approve, input).0.Ok? <==>
            && i < |s.approvals| && s.approvals[i].status == Pending && s.approvals[i].payloadHash == input.payloadHash
            && ActorRefusal(settings, s.approvals[i], input.principalId).None?
            && (input.now.None? || BeforeExpiry(s.approvals[i].expiresAt, input.now))
  {
    hide ActorRefusal, DecidedRun;
  }

  // ---------------------------------------------------------------- the class

  class BekStore {
    var settings: Settings
    var runs: seq<Run>
    var approvals: seq<Approval>
    var changes: nat

    ghost function Contents(): Store
      reads this
    {
      Store(runs, approvals, changes)
    }

    constructor (settings: Settings)
      ensures this.settings == settings && Contents() == Store([], [], 0)
    {
      this.settings := settings;
      runs, approvals, changes := [], [], 0;
    }

    method RecordChange()
      modifies `changes
      ensures changes == old(changes) + 1
    {
      changes := changes + 1;
    }

    /** Updates the newest run in place, as the source does through its reference to it. */
    method CreateRun(input: CreateRunInput, runId: string, approvalId: string, now: int) returns (result: Result<Run>)
      modifies `runs, `approvals, `changes
      ensures (result, Contents()) == CreateRunStep(old(Contents()), settings, input, runId, approvalId, now)
    {
      hide EvaluatePolicy, BundlesForPlace, ResolveRunProfiles, EstimatePromptCostCents;
      var profiles :- ResolveRunProfiles(settings, input.capability);
      if input.placeScopeId !in settings.places {
        return Err("Unknown place scope.");
      }
      var run := NewRun(settings, input, profiles, runId);
      runs := [run] + runs;
      if input.capability.Some? {
        var decision := EvaluatePolicy(BundlesForPlace(settings.accessBundles, input.placeScopeId),
                                       Request(input.placeScopeId, input.capability.value, input.resource));
        if decision.decision == Deny {
          runs := runs[0 := runs[0].(status := Failed)];
        } else if decision.requiresApproval {
          if !(input.deferApproval && input.worker) {
            var payloadHash :- input.payloadHash;
            var approval := NewApproval(settings, run, decision.risk, payloadHash, approvalId, now);
            runs := runs[0 := runs[0].(status := AwaitingApproval)];
            approvals := [approval] + approvals;
          }
        } else if !input.worker {
          runs := runs[0 := runs[0].(status := Completed, actualCostCents := Max(1, run.estimatedCostCents - 1))];
        }
      }
      RecordChange();
      assert runs == [runs[0]] + old(runs);
      return Ok(runs[0]);
    }

    method DecideApproval(approvalId: string, approve: bool, input: DecisionInput) returns (result: Result<Approval>)
      modifies `runs, `approvals, `changes
      ensures (result, Contents()) == DecideApprovalStep(old(Contents()), settings, approvalId, approve, input)
    {
      hide Lapsed, ActorRefusal, ApprovalIndex, RunIndex;
      var i := ApprovalIndex(approvals, approvalId);
      if i == |approvals| {
        return Err("Approval not found.");
      }
      var approval := approvals[i];
      if approval.status != Pending {
        return Err("Approval is no longer pending.");
      }
      if approval.payloadHash != input.payloadHash {
        return Err("Approval payload hash does not match the pending request.");
      }
      if Lapsed(approval.expiresAt, input.now) {
        approvals := approvals[i := approval.(status := Expired, decidedAt := Some(input.now))];
        return Err("Approval has expired.");
      }
      var refusal := ActorRefusal(settings, approval, input.principalId);
      if refusal.Some? {
        return Err(refusal.value);
      }
      approval := approval.(status := if approve then Approved else Denied,
                            decidedByPrincipalId := Some(input.principalId), decidedAt := Some(input.now));
      approvals := approvals[i := approval];
      var k := RunIndex(runs, approval.runId);
      if k < |runs| {
        if approve && input.worker {
          runs := runs[k := runs[k].(status := Queued)];
        } else {
          runs := runs[k := runs[k].(
            status := if approve then Completed else Cancelled,
            actualCostCents := if approve then Max(1, runs[k].estimatedCostCents) else 0)];
        }
      }
      RecordChange();
      return Ok(approval);
    }
  }

  // ---------------------------------------------------------------- runs of the machine

  /** Any other store method may have changed the settings between two actions. */
  datatype Action =
    | Create(settings: Settings, input: CreateRunInput, runId: string, approvalId: string, now: int)
    | Decide(settings: Settings, approvalId: string, approve: bool, decision: DecisionInput)

  function Apply(s: Store, action: Action): Store {
    match action
    case Create(settings, input, runId, approvalId, now) => CreateRunStep(s, settings, input, runId, approvalId, now).1
    case Decide(settings, approvalId, approve, decision) =>
      DecideApprovalStep(s, settings, approvalId, approve, decision).1
  }

  predicate Accepted(s: Store, action: Action) {
    match action
    case Create(settings, input, runId, approvalId, now) =>
      CreateRunStep(s, settings, input, runId, approvalId, now).0.Ok?
    case Decide(settings, approvalId, approve, decision) =>
      DecideApprovalStep(s, settings, approvalId, approve, decision).0.Ok?
  }

  /** Created ids are new. */
  ghost predicate Fresh(s: Store, action: Action) {
    action.Create? ==>
      && (forall r :: r in s.runs ==> r.id != action.runId)
      && (forall a :: a in s.approvals ==> a.id != action.approvalId && a.runId != action.runId)
  }

  /** The actions of the past, looked up by what they made: the creation of each run and the
      accepted decision on each approval. */
  datatype History = History(created: map<string, Action>, decided: map<string, Action>)

  ghost function Remember(h: History, s: Store, action: Action): History {
    match action
    case Create(_, _, _, _, _) =>
      if |Apply(s, action).runs| > |s.runs| then h.(created := h.created[action.runId := action]) else h
    case Decide(_, _, _, _) =>
      if Accepted(s, action) then h.(decided := h.decided[action.approvalId := action]) else h
  }

  ghost predicate Reaches(actions: seq<Action>, s: Store, h: History) {
    if actions == [] then s == Store([], [], 0) && h == History(map[], map[])
    else
      var n := |actions| - 1;
      exists before, past ::
        && Reaches(actions[..n], before, past) && Fresh(before, actions[n])
        && s == Apply(before, actions[n]) && h == Remember(past, before, actions[n])
  }

  // ---------------------------------------------------------------- the invariant

  ghost predicate IsCreation(action: Action) {
    action.Create? && ResolveRunProfiles(action.settings, action.input.capability).Ok?
  }

  ghost function CreationStatus(c: Action): Option<RunStatus>
    requires c.Create?
  {
    FirstStatus(Verdict(c.settings, c.input), c.input.worker, c.input.deferApproval)
  }

  /** The run asked for approval and got an approval request. */
  ghost predicate Asks(c: Action)
    requires c.Create?
  {
    CreationStatus(c).None? && c.input.payloadHash.Ok?
  }

  ghost predicate SameRequest(r: Run, c: Action)
    requires IsCreation(c)
  {
    var blank := NewRun(c.settings, c.input, ResolveRunProfiles(c.settings, c.input.capability).value, c.runId);
    r == blank.(status := r.status, actualCostCents := r.actualCostCents)
  }

  /** A run without an approval is where its creation left it. */
  ghost predicate AsCreated(r: Run, c: Action)
    requires c.Create?
  {
    match CreationStatus(c)
    case None => r.status == Queued && r.actualCostCents == 0
    case Some(status) =>
      r.status == status && r.actualCostCents == if status == Completed then Max(1, r.estimatedCostCents - 1) else 0
  }

  /** A run with an approval is where that approval puts it. */
  ghost predicate AsDecided(r: Run, a: Approval, h: History) {
    match a.status
    case Pending => r.status == AwaitingApproval && r.actualCostCents == 0
    case Expired => r.status == AwaitingApproval && r.actualCostCents == 0
    case Denied => r.status == Cancelled && r.actualCostCents == 0
    case Approved =>
      && a.id in h.decided && h.decided[a.id].Decide?
      && if h.decided[a.id].decision.worker then r.status == Queued && r.actualCostCents == 0
         else r.status == Completed && r.actualCostCents == Max(1, r.estimatedCostCents)
  }

  ghost predicate RunGood(r: Run, s: Store, h: History) {
    && r.id in h.created && IsCreation(h.created[r.id]) && h.created[r.id].runId == r.id
    && SameRequest(r, h.created[r.id])
    && (Asks(h.created[r.id]) <==> exists a :: a in s.approvals && a.runId == r.id)
    && (!Asks(h.created[r.id]) ==> AsCreated(r, h.created[r.id]))
    && forall a :: a in s.approvals && a.runId == r.id ==> AsDecided(r, a, h)
  }

  /** Decided in time (or at an unreadable time), with the matching hash, by a human of the same
      organisation who is not the requester when the risk is guarded. */
  ghost predicate ProperlyDecided(a: Approval, d: Action) {
    && d.Decide? && d.approvalId == a.id && a.status == (if d.approve then Approved else Denied)
    && a.decidedAt == Some(d.decision.now) && !Lapsed(a.expiresAt, d.decision.now)
    && d.decision.payloadHash == a.payloadHash && a.decidedByPrincipalId == Some(d.decision.principalId)
    && Principal(d.decision.principalId, a.orgId, Human) in d.settings.principals
    && (Guarded(a.risk) ==> d.decision.principalId != a.requestedByPrincipalId)
  }

  ghost predicate ApprovalGood(a: Approval, s: Store, h: History) {
    && (exists r :: r in s.runs && r.id == a.runId && r.orgId == a.orgId
                    && r.requesterPrincipalId == a.requestedByPrincipalId)
    && a.runId in h.created && IsCreation(h.created[a.runId]) && Asks(h.created[a.runId])
    && a.expiresAt == h.created[a.runId].now + APPROVAL_LIFETIME_MS
    && a.risk == Verdict(h.created[a.runId].settings, h.created[a.runId].input).value.risk
    && match a.status
       case Pending => a.decidedAt.None? && a.decidedByPrincipalId.None?
       case Expired => a.decidedAt.Some? && Lapsed(a.expiresAt, a.decidedAt.value) && a.decidedByPrincipalId.None?
       case _ => a.id in h.decided && ProperlyDecided(a, h.decided[a.id])
  }

  ghost predicate DistinctRuns(runs: seq<Run>) {
    forall i, j :: 0 <= i < j < |runs| ==> runs[i].id != runs[j].id
  }

  ghost predicate DistinctApprovals(approvals: seq<Approval>) {
    forall i, j :: 0 <= i < j < |approvals| ==>
        approvals[i].id != approvals[j].id && approvals[i].runId != approvals[j].runId
  }

  ghost predicate Inv(s: Store, h: History) {
    && DistinctRuns(s.runs) && DistinctApprovals(s.approvals)
    && (forall r :: r in s.runs ==> RunGood(r, s, h))
    && (forall a :: a in s.approvals ==> ApprovalGood(a, s, h))
  }

  // ---------------------------------------------------------------- every step keeps it

  /** The run and the approval that a creation adds. */
  lemma CreateOutcome(s: Store, action: Action)
    requires action.Create? && |Apply(s, action).runs| > |s.runs|
    ensures var s' := Apply(s, action); var run := s'.runs[0];
            && s'.runs == [run] + s.runs && IsCreation(action) && SameRequest(run, action)
            && (Asks(action) ==>
                 && run.status == AwaitingApproval && run.actualCostCents == 0
                 && s'.approvals == [AskedApproval(action)] + s.approvals)
            && (!Asks(action) ==> AsCreated(run, action) && s'.approvals == s.approvals)
  {
    hide Verdict, ResolveRunProfiles, EstimatePromptCostCents;
  }

  ghost function AskedApproval(c: Action): Approval
    requires IsCreation(c) && Asks(c)
  {
    var run := NewRun(c.settings, c.input, ResolveRunProfiles(c.settings, c.input.capability).value, c.runId);
    NewApproval(c.settings, run, Verdict(c.settings, c.input).value.risk, c.input.payloadHash.value, c.approvalId,
                c.now)
  }

  lemma CreateKeepsInv(s: Store, h: History, action: Action)
    requires Inv(s, h) && action.Create? && Fresh(s, action)
    ensures Inv(Apply(s, action), Remember(h, s, action))
  {
    var s', h' := Apply(s, action), Remember(h, s, action);
    CreateRemembers(s, h, action);
    hide Apply, Remember, RunGood, ApprovalGood, IsCreation, Asks, SameRequest, AsCreated, AskedApproval, Inv;
    if |s'.runs| > |s.runs| {
      CreateOutcome(s, action);
      var run := s'.runs[0];
      AddedIdentities(run, action);
      NewRunGood(s, s', h', action);
      OldRunsGood(s, s', h, h', action);
      OldApprovalsGood(s, s', h, h', action);
      AddedKeepsInv(s, s', h, h', action);
    } else {
      CreateWithoutRun(s, action);
    }
  }

  lemma CreateRemembers(s: Store, h: History, action: Action)
    requires action.Create?
    ensures Remember(h, s, action) == if |Apply(s, action).runs| > |s.runs|
                                      then h.(created := h.created[action.runId := action]) else h
  {
    hide Apply;
  }

  lemma AddedKeepsInv(s: Store, s': Store, h: History, h': History, action: Action)
    requires Inv(s, h) && action.Create? && Fresh(s, action)
    requires s'.runs != [] && s'.runs == [s'.runs[0]] + s.runs && s'.runs[0].id == action.runId
    requires s'.approvals == s.approvals ||
             (s'.approvals != [] && s'.approvals == [s'.approvals[0]] + s.approvals
              && s'.approvals[0].id == action.approvalId && s'.approvals[0].runId == action.runId
              && ApprovalGood(s'.approvals[0], s', h'))
    requires RunGood(s'.runs[0], s', h')
    requires forall r :: r in s.runs ==> RunGood(r, s', h')
    requires forall a :: a in s.approvals ==> ApprovalGood(a, s', h')
    ensures Inv(s', h')
  {
    hide RunGood, ApprovalGood;
    assert forall r :: r in s'.runs ==> r == s'.runs[0] || r in s.runs;
    if s'.approvals != s.approvals {
      assert forall a :: a in s'.approvals ==> a == s'.approvals[0] || a in s.approvals;
    }
  }

  lemma CreateWithoutRun(s: Store, action: Action)
    requires action.Create? && |Apply(s, action).runs| <= |s.runs|
    ensures Apply(s, action) == s
  {
    hide Verdict, ResolveRunProfiles, FirstStatus, NewRun;
  }

  lemma AddedIdentities(run: Run, action: Action)
    requires IsCreation(action) && SameRequest(run, action)
    ensures run.id == action.runId
    ensures Asks(action) ==>
              AskedApproval(action).id == action.approvalId && AskedApproval(action).runId == action.runId
  {
    hide Verdict, ResolveRunProfiles, EstimatePromptCostCents, Asks;
  }

  lemma NewRunGood(s: Store, s': Store, h': History, action: Action)
    requires action.Create? && Fresh(s, action) && IsCreation(action)
    requires action.runId in h'.created && h'.created[action.runId] == action
    requires s'.runs != [] && s'.runs[0].id == action.runId && SameRequest(s'.runs[0], action)
    requires Asks(action) ==>
               s'.approvals == [AskedApproval(action)] + s.approvals && s'.runs[0].status == AwaitingApproval
                              && s'.runs[0].actualCostCents == 0
    requires !Asks(action) ==> AsCreated(s'.runs[0], action) && s'.approvals == s.approvals
    ensures RunGood(s'.runs[0], s', h')
    ensures Asks(action) ==> ApprovalGood(AskedApproval(action), s', h')
  {
    var run := s'.runs[0];
    AddedIdentities(run, action);
    if Asks(action) {
      NewApprovalGood(run, s', h', action);
      assert s'.approvals[0] in s'.approvals;
      AskedIsPending(action);
    }
    hide IsCreation, Asks, SameRequest, AsCreated, AskedApproval, ApprovalGood;
    assert forall a :: a in s'.approvals ==> (Asks(action) && a == AskedApproval(action)) || a in s.approvals;
  }

  lemma AskedIsPending(c: Action)
    requires IsCreation(c) && Asks(c)
    ensures AskedApproval(c).status == Pending && AskedApproval(c).decidedAt.None?
    ensures AskedApproval(c).decidedByPrincipalId.None?
  {
    hide Verdict, ResolveRunProfiles, EstimatePromptCostCents, Asks;
  }

  lemma NewApprovalGood(run: Run, s': Store, h': History, action: Action)
    requires IsCreation(action) && Asks(action) && SameRequest(run, action) && run in s'.runs
    requires action.runId in h'.created && h'.created[action.runId] == action
    ensures ApprovalGood(AskedApproval(action), s', h')
  {
    hide Verdict, ResolveRunProfiles, EstimatePromptCostCents, Asks;
  }

  /** A run stays good while its own approvals, and what is remembered of them, stay the same. */
  lemma RunStaysGood(r: Run, s: Store, s': Store, h: History, h': History)
    requires RunGood(r, s, h) && r.id in h'.created && h'.created[r.id] == h.created[r.id]
    requires forall a: Approval :: a.runId == r.id ==> (a in s.approvals <==> a in s'.approvals)
    requires forall a :: a in s.approvals && a.runId == r.id && a.id in h.decided ==>
               a.id in h'.decided && h'.decided[a.id] == h.decided[a.id]
    ensures RunGood(r, s', h')
  {
    hide IsCreation, Asks, SameRequest, AsCreated;
    forall a | a in s'.approvals && a.runId == r.id ensures AsDecided(r, a, h') {
      assert AsDecided(r, a, h);
    }
  }

  lemma OldRunsGood(s: Store, s': Store, h: History, h': History, action: Action)
    requires Inv(s, h) && action.Create? && Fresh(s, action)
    requires h' == h.(created := h.created[action.runId := action])
    requires forall a :: a in s.approvals ==> a in s'.approvals
    requires forall a :: a in s'.approvals ==> a in s.approvals || a.runId == action.runId
    ensures forall r :: r in s.runs ==> RunGood(r, s', h')
  {
    hide RunGood;
    forall r | r in s.runs ensures RunGood(r, s', h') {
      RunRemembered(r, s, h);
      RunStaysGood(r, s, s', h, h');
    }
  }

  lemma RunRemembered(r: Run, s: Store, h: History)
    requires RunGood(r, s, h)
    ensures r.id in h.created
  {
  }

  lemma OldApprovalsGood(s: Store, s': Store, h: History, h': History, action: Action)
    requires Inv(s, h) && action.Create? && Fresh(s, action)
    requires h' == h.(created := h.created[action.runId := action])
    requires forall r :: r in s.runs ==> r in s'.runs
    ensures forall a :: a in s.approvals ==> ApprovalGood(a, s', h')
  {
    hide ApprovalGood, RunGood;
    forall a | a in s.approvals ensures ApprovalGood(a, s', h') {
      ApprovalStaysGood(a, s, s', h, h');
    }
  }

  /** An approval stays good while its run keeps its people, and what is remembered of both stays. */
  lemma ApprovalStaysGood(a: Approval, s: Store, s': Store, h: History, h': History)
    requires ApprovalGood(a, s, h)
    requires a.runId in h.created ==> a.runId in h'.created && h'.created[a.runId] == h.created[a.runId]
    requires a.id in h.decided ==> a.id in h'.decided && h'.decided[a.id] == h.decided[a.id]
    requires forall r :: r in s.runs && r.id == a.runId ==> r in s'.runs
    ensures ApprovalGood(a, s', h')
  {
    hide IsCreation, Asks, Verdict, ProperlyDecided;
    var r :| r in s.runs && r.id == a.runId && r.orgId == a.orgId && r.requesterPrincipalId == a.requestedByPrincipalId;
    assert r in s'.runs;
  }

  /** `s'` differs from `s` in approval `i` and perhaps in its run `k`, and in no identity. */
  ghost predicate Touches(s: Store, s': Store, i: nat, k: nat) {
    && i < |s.approvals| && k < |s.runs| && s.runs[k].id == s.approvals[i].runId
    && |s'.approvals| == |s.approvals| && s'.approvals == s.approvals[i := s'.approvals[i]]
    && |s'.runs| == |s.runs| && s'.runs == s.runs[k := s'.runs[k]]
    && s'.approvals[i] == s.approvals[i].(status := s'.approvals[i].status, decidedAt := s'.approvals[i].decidedAt,
                                          decidedByPrincipalId := s'.approvals[i].decidedByPrincipalId)
    && s'.runs[k] == s.runs[k].(status := s'.runs[k].status, actualCostCents := s'.runs[k].actualCostCents)
  }

  lemma DecideTouches(s: Store, h: History, action: Action)
    requires Inv(s, h) && action.Decide? && Apply(s, action) != s
    ensures var i := ApprovalIndex(s.approvals, action.approvalId);
            && i < |s.approvals| && Touches(s, Apply(s, action), i, RunIndex(s.runs, s.approvals[i].runId))
  {
    hide Touches, Inv;
    var i := ApprovalIndex(s.approvals, action.approvalId);
    assert i < |s.approvals|;
    OwnerFound(s, h, s.approvals[i]);
    DecideShape(s, action);
  }

  lemma DecideShape(s: Store, action: Action)
    requires action.Decide? && Apply(s, action) != s
    requires var i := ApprovalIndex(s.approvals, action.approvalId);
             i < |s.approvals| ==> RunIndex(s.runs, s.approvals[i].runId) < |s.runs|
    ensures var i := ApprovalIndex(s.approvals, action.approvalId);
            && i < |s.approvals| && Touches(s, Apply(s, action), i, RunIndex(s.runs, s.approvals[i].runId))
  {
    hide ActorRefusal;
  }

  lemma OwnerFound(s: Store, h: History, a: Approval)
    requires Inv(s, h) && a in s.approvals
    ensures RunIndex(s.runs, a.runId) < |s.runs|
  {
    hide IsCreation, Asks, Verdict, RunGood, ProperlyDecided;
    assert ApprovalGood(a, s, h);
    var run :| run in s.runs && run.id == a.runId;
    var j :| 0 <= j < |s.runs| && s.runs[j] == run;
    assert RunIndex(s.runs, a.runId) <= j;
  }

  lemma TouchedMembers(s: Store, s': Store, i: nat, k: nat)
    requires Touches(s, s', i, k) && DistinctRuns(s.runs) && DistinctApprovals(s.approvals)
    ensures DistinctRuns(s'.runs) && DistinctApprovals(s'.approvals)
    ensures forall r :: r in s'.runs <==> r == s'.runs[k] || (r in s.runs && r.id != s.runs[k].id)
    ensures forall a :: a in s'.approvals <==>
              a == s'.approvals[i] || (a in s.approvals && a.id != s.approvals[i].id && a.runId != s.approvals[i].runId)
  {
    forall r | r in s.runs && r.id != s.runs[k].id ensures r in s'.runs {
      var j :| 0 <= j < |s.runs| && s.runs[j] == r;
      assert s'.runs[j] == r;
    }
    forall r | r in s'.runs ensures r == s'.runs[k] || (r in s.runs && r.id != s.runs[k].id) {
      var j :| 0 <= j < |s'.runs| && s'.runs[j] == r;
    }
    forall a | a in s.approvals && a.id != s.approvals[i].id && a.runId != s.approvals[i].runId
      ensures a in s'.approvals {
      var j :| 0 <= j < |s.approvals| && s.approvals[j] == a;
      assert s'.approvals[j] == a;
    }
    forall a | a in s'.approvals
      ensures a == s'.approvals[i] || (a in s.approvals && a.id != s.approvals[i].id && a.runId != s.approvals[i].runId)
    {
      var j :| 0 <= j < |s'.approvals| && s'.approvals[j] == a;
    }
  }

  lemma UntouchedRunsGood(s: Store, s': Store, h: History, h': History, i: nat, k: nat)
    requires Inv(s, h) && Touches(s, s', i, k) && h'.created == h.created
    requires forall id :: id in h.decided && id != s.approvals[i].id ==>
               id in h'.decided && h'.decided[id] == h.decided[id]
    ensures forall r :: r in s.runs && r.id != s.runs[k].id ==> RunGood(r, s', h')
  {
    TouchedMembers(s, s', i, k);
    OthersDiffer(s.approvals, i);
    var runId, was := s.runs[k].id, s.approvals[i];
    hide RunGood, ApprovalGood, Touches;
    forall r | r in s.runs && r.id != runId ensures RunGood(r, s', h') {
      RunRemembered(r, s, h);
      RunStaysGood(r, s, s', h, h');
    }
  }

  lemma OthersDiffer(approvals: seq<Approval>, i: nat)
    requires i < |approvals| && DistinctApprovals(approvals)
    ensures forall a :: a in approvals && (a.id == approvals[i].id || a.runId == approvals[i].runId) ==>
              a == approvals[i]
  {
  }

  lemma UntouchedApprovalsGood(s: Store, s': Store, h: History, h': History, i: nat, k: nat)
    requires Inv(s, h) && Touches(s, s', i, k) && h'.created == h.created
    requires forall id :: id in h.decided && id != s.approvals[i].id ==>
               id in h'.decided && h'.decided[id] == h.decided[id]
    ensures forall a :: a in s.approvals && a.id != s.approvals[i].id ==> ApprovalGood(a, s', h')
  {
    TouchedMembers(s, s', i, k);
    OthersDiffer(s.approvals, i);
    hide ApprovalGood, RunGood, Touches;
    var was := s.approvals[i];
    forall a | a in s.approvals && a.id != was.id ensures ApprovalGood(a, s', h') {
      ApprovalStaysGood(a, s, s', h, h');
    }
  }

  /** An approval decided or expired as it should be, with its run where it puts it. */
  ghost predicate Settled(r: Run, a: Approval, h: History) {
    && AsDecided(r, a, h) && a.status != Pending
    && if a.status == Expired then
         a.decidedAt.Some? && Lapsed(a.expiresAt, a.decidedAt.value) && a.decidedByPrincipalId.None?
       else a.id in h.decided && ProperlyDecided(a, h.decided[a.id])
  }

  /** What an effective decision did: the approval expired, or it was accepted. */
  lemma DecideOutcome(s: Store, action: Action, i: nat, k: nat)
    requires action.Decide? && i == ApprovalIndex(s.approvals, action.approvalId) && i < |s.approvals|
    requires k == RunIndex(s.runs, s.approvals[i].runId) && k < |s.runs| && Apply(s, action) != s
    ensures var s', a, d := Apply(s, action), s.approvals[i], action.decision;
            && a.status == Pending && a.payloadHash == d.payloadHash
            && (Lapsed(a.expiresAt, d.now) ==>
                 && !Accepted(s, action)
                 && s' == s.(approvals := s.approvals[i := a.(status := Expired, decidedAt := Some(d.now))]))
            && (!Lapsed(a.expiresAt, d.now) ==>
                 && Accepted(s, action) && ActorRefusal(action.settings, a, d.principalId).None?
                 && s'.approvals == s.approvals[i := AsAccepted(a, action)]
                 && s'.runs == s.runs[k := DecidedRun(s.runs[k], action.approve, d.worker)])
  {
    hide ActorRefusal, DecidedRun;
  }

  function AsAccepted(a: Approval, action: Action): Approval
    requires action.Decide?
  {
    a.(status := if action.approve then Approved else Denied,
       decidedByPrincipalId := Some(action.decision.principalId), decidedAt := Some(action.decision.now))
  }

  lemma EntitledActor(settings: Settings, a: Approval, principalId: string)
    requires ActorRefusal(settings, a, principalId).None?
    ensures Principal(principalId, a.orgId, Human) in settings.principals
    ensures Guarded(a.risk) ==> principalId != a.requestedByPrincipalId
  {
    var i := IndexOf(settings.principals, (p: Principal) => p.id == principalId && p.orgId == a.orgId);
    assert settings.principals[i] == Principal(principalId, a.orgId, Human);
  }

  lemma AcceptedWell(run: Run, a: Approval, action: Action, h': History)
    requires action.Decide? && a.id == action.approvalId && a.payloadHash == action.decision.payloadHash
    requires !Lapsed(a.expiresAt, action.decision.now)
    requires ActorRefusal(action.settings, a, action.decision.principalId).None?
    requires a.id in h'.decided && h'.decided[a.id] == action && run.actualCostCents == 0
    ensures Settled(DecidedRun(run, action.approve, action.decision.worker), AsAccepted(a, action), h')
  {
    EntitledActor(action.settings, a, action.decision.principalId);
    hide ActorRefusal, Lapsed;
  }

  lemma DecidedWell(s: Store, h: History, action: Action, i: nat, k: nat)
    requires action.Decide? && i == ApprovalIndex(s.approvals, action.approvalId) && i < |s.approvals|
    requires k == RunIndex(s.runs, s.approvals[i].runId) && k < |s.runs| && Apply(s, action) != s
    requires AsDecided(s.runs[k], s.approvals[i], h)
    requires ApprovalGood(s.approvals[i], s, h)
    ensures var s' := Apply(s, action);
            && k < |s'.runs| && i < |s'.approvals|
            && Settled(s'.runs[k], s'.approvals[i], Remember(h, s, action))
  {
    var a, d := s.approvals[i], action.decision;
    DecideOutcome(s, action, i, k);
    PendingUndecided(a, s, h);
    hide Apply, Accepted, ActorRefusal, DecidedRun, ApprovalGood;
    if !Lapsed(a.expiresAt, d.now) {
      AcceptedWell(s.runs[k], a, action, Remember(h, s, action));
      hide Settled, AsDecided;
    }
  }

  lemma PendingUndecided(a: Approval, s: Store, h: History)
    requires ApprovalGood(a, s, h) && a.status == Pending
    ensures a.decidedAt.None? && a.decidedByPrincipalId.None?
  {
    hide IsCreation, Asks, Verdict, ProperlyDecided;
  }

  lemma TouchedRunGood(r: Run, r': Run, s: Store, s': Store, h: History, h': History, was: Approval, now: Approval)
    requires RunGood(r, s, h) && r' == r.(status := r'.status, actualCostCents := r'.actualCostCents)
    requires was in s.approvals && was.runId == r.id && now in s'.approvals && now.runId == r.id
    requires forall a :: a in s'.approvals && a.runId == r.id ==> a == now
    requires h'.created == h.created && AsDecided(r', now, h')
    ensures RunGood(r', s', h')
  {
    hide IsCreation, Asks, AsCreated, AsDecided;
    var c := h.created[r.id];
    SameRequestStays(r, r', c);
    hide SameRequest;
  }

  lemma SameRequestStays(r: Run, r': Run, c: Action)
    requires IsCreation(c) && SameRequest(r, c)
    requires r' == r.(status := r'.status, actualCostCents := r'.actualCostCents)
    ensures SameRequest(r', c)
  {
    hide NewRun, IsCreation, ResolveRunProfiles;
  }

  lemma TouchedApprovalGood(run: Run, was: Approval, now: Approval, s: Store, s': Store, h: History, h': History)
    requires ApprovalGood(was, s, h) && h'.created == h.created && Settled(run, now, h')
    requires now == was.(status := now.status, decidedAt := now.decidedAt,
                         decidedByPrincipalId := now.decidedByPrincipalId)
    requires run in s'.runs && run.id == was.runId && run.orgId == was.orgId
    requires run.requesterPrincipalId == was.requestedByPrincipalId
    ensures ApprovalGood(now, s', h')
  {
    hide IsCreation, Asks, Verdict, ProperlyDecided, AsDecided, Lapsed;
  }

  lemma TouchedGood(s: Store, s': Store, h: History, h': History, i: nat, k: nat)
    requires Inv(s, h) && Touches(s, s', i, k) && h'.created == h.created
    requires Settled(s'.runs[k], s'.approvals[i], h')
    ensures RunGood(s'.runs[k], s', h') && ApprovalGood(s'.approvals[i], s', h')
  {
    var was, now, r, r' := s.approvals[i], s'.approvals[i], s.runs[k], s'.runs[k];
    TouchedMembers(s, s', i, k);
    ApprovalIsGood(s, h, was);
    RunIsGood(s, h, r);
    SettledIs(r', now, h');
    SameOwner(s, h, was, k);
    hide Inv, RunGood, ApprovalGood, Settled, AsDecided;
    assert now in s'.approvals && r' in s'.runs;
    TouchedRunGood(r, r', s, s', h, h', was, now);
    TouchedApprovalGood(r', was, now, s, s', h, h');
  }

  lemma SettledIs(r: Run, a: Approval, h: History)
    requires Settled(r, a, h)
    ensures AsDecided(r, a, h)
  {
    hide AsDecided, ProperlyDecided;
  }

  lemma SameOwner(s: Store, h: History, a: Approval, k: nat)
    requires DistinctRuns(s.runs) && k < |s.runs| && s.runs[k].id == a.runId && ApprovalGood(a, s, h)
    ensures s.runs[k].orgId == a.orgId && s.runs[k].requesterPrincipalId == a.requestedByPrincipalId
  {
    hide IsCreation, Asks, Verdict, ProperlyDecided;
    var r :| r in s.runs && r.id == a.runId && r.orgId == a.orgId && r.requesterPrincipalId == a.requestedByPrincipalId;
    var j :| 0 <= j < |s.runs| && s.runs[j] == r;
    assert j == k;
  }

  lemma RunDecided(r: Run, a: Approval, s: Store, h: History)
    requires RunGood(r, s, h) && a in s.approvals && a.runId == r.id
    ensures AsDecided(r, a, h)
  {
    hide IsCreation, Asks, AsCreated, SameRequest, AsDecided;
  }

  lemma DecideKeepsInv(s: Store, h: History, action: Action)
    requires Inv(s, h) && action.Decide?
    ensures Inv(Apply(s, action), Remember(h, s, action))
  {
    DecideRemembers(s, h, action);
    hide Inv, Apply, Remember, Accepted;
    if Apply(s, action) != s {
      var i := ApprovalIndex(s.approvals, action.approvalId);
      DecideTouches(s, h, action);
      ChangedKeepsInv(s, h, action, i, RunIndex(s.runs, s.approvals[i].runId));
    } else {
      UnchangedNotAccepted(s, action);
      assert Remember(h, s, action) == h;
    }
  }

  lemma ChangedKeepsInv(s: Store, h: History, action: Action, i: nat, k: nat)
    requires Inv(s, h) && action.Decide? && Apply(s, action) != s && i == ApprovalIndex(s.approvals, action.approvalId)
    requires Touches(s, Apply(s, action), i, k) && k == RunIndex(s.runs, s.approvals[i].runId)
    ensures Inv(Apply(s, action), Remember(h, s, action))
  {
    var s', h' := Apply(s, action), Remember(h, s, action);
    OthersRemembered(s, h, action);
    hide Inv, Apply, Remember, Accepted, RunGood, ApprovalGood, Settled, AsDecided, ApprovalIndex, RunIndex;
    assert s.approvals[i] in s.approvals && s.runs[k] in s.runs && s.runs[k].id == s.approvals[i].runId;
    hide Touches;
    ApprovalIsGood(s, h, s.approvals[i]);
    RunIsGood(s, h, s.runs[k]);
    RunDecided(s.runs[k], s.approvals[i], s, h);
    DecidedWell(s, h, action, i, k);
    TouchedGood(s, s', h, h', i, k);
    AllGood(s, s', h, h', i, k);
  }

  lemma DecideRemembers(s: Store, h: History, action: Action)
    requires action.Decide?
    ensures var h' := Remember(h, s, action);
            && h'.created == h.created
            && h'.decided == if Accepted(s, action) then h.decided[action.approvalId := action] else h.decided
  {
    hide Accepted, Apply;
  }

  lemma OthersRemembered(s: Store, h: History, action: Action)
    requires action.Decide?
    ensures var h' := Remember(h, s, action);
            && h'.created == h.created
            && forall id :: id in h.decided && id != action.approvalId ==>
                 id in h'.decided && h'.decided[id] == h.decided[id]
  {
    DecideRemembers(s, h, action);
    hide Remember, Accepted, Apply;
  }

  lemma UnchangedNotAccepted(s: Store, action: Action)
    requires action.Decide? && Apply(s, action) == s
    ensures !Accepted(s, action)
  {
    hide ActorRefusal, DecidedRun;
  }

  lemma AllGood(s: Store, s': Store, h: History, h': History, i: nat, k: nat)
    requires Inv(s, h) && Touches(s, s', i, k) && h'.created == h.created
    requires forall id :: id in h.decided && id != s.approvals[i].id ==>
               id in h'.decided && h'.decided[id] == h.decided[id]
    requires RunGood(s'.runs[k], s', h') && ApprovalGood(s'.approvals[i], s', h')
    ensures Inv(s', h')
  {
    TouchedMembers(s, s', i, k);
    UntouchedRunsGood(s, s', h, h', i, k);
    UntouchedApprovalsGood(s, s', h, h', i, k);
    hide RunGood, ApprovalGood, Touches;
  }

  // ---------------------------------------------------------------- over every run

  lemma StepKeepsInv(s: Store, h: History, action: Action)
    requires Inv(s, h) && Fresh(s, action)
    ensures Inv(Apply(s, action), Remember(h, s, action))
  {
    if action.Create? {
      CreateKeepsInv(s, h, action);
    } else {
      DecideKeepsInv(s, h, action);
    }
  }

  /** What is remembered happened. */
  ghost predicate Happened(h: History, actions: seq<Action>) {
    && (forall id :: id in h.created ==> h.created[id] in actions)
    && (forall id :: id in h.decided ==> h.decided[id] in actions)
  }

  lemma HappenedStep(h: History, s: Store, actions: seq<Action>, action: Action)
    requires Happened(h, actions)
    ensures Happened(Remember(h, s, action), actions + [action])
  {
    hide Apply, Accepted;
    assert action in actions + [action] && forall a :: a in actions ==> a in actions + [action];
  }

  lemma {:induction false} RunKeepsInv(actions: seq<Action>, s: Store, h: History)
    requires Reaches(actions, s, h)
    ensures Inv(s, h) && Happened(h, actions)
  {
    hide Inv, Apply, Remember, Fresh, Happened;
    if actions == [] {
      EmptyStore();
    } else {
      var n := |actions| - 1;
      var before, past :| Reaches(actions[..n], before, past) && Fresh(before, actions[n])
                          && s == Apply(before, actions[n]) && h == Remember(past, before, actions[n]);
      RunKeepsInv(actions[..n], before, past);
      StepKeepsInv(before, past, actions[n]);
      HappenedStep(past, before, actions[..n], actions[n]);
      assert actions == actions[..n] + [actions[n]];
    }
  }

  lemma EmptyStore()
    ensures Inv(Store([], [], 0), History(map[], map[])) && Happened(History(map[], map[]), [])
  {
  }

  /** At every moment a run awaits approval exactly when it has an approval that is pending or
      expired, and it never has more than one approval. */
  lemma AwaitingExactly(actions: seq<Action>, s: Store, h: History)
    requires Reaches(actions, s, h)
    ensures forall r :: r in s.runs ==>
              (r.status == AwaitingApproval <==>
                exists a :: a in s.approvals && a.runId == r.id && (a.status == Pending || a.status == Expired))
    ensures forall a, b :: a in s.approvals && b in s.approvals && a.runId == b.runId ==> a == b
  {
    RunKeepsInv(actions, s, h);
    OneApprovalEach(s, h);
    hide Inv, Reaches, RunGood, ApprovalGood;
    forall r | r in s.runs
      ensures r.status == AwaitingApproval <==>
                exists a :: a in s.approvals && a.runId == r.id && (a.status == Pending || a.status == Expired)
    {
      RunIsGood(s, h, r);
      AwaitingRun(s, h, r);
    }
  }

  lemma OneApprovalEach(s: Store, h: History)
    requires Inv(s, h)
    ensures forall a, b :: a in s.approvals && b in s.approvals && a.runId == b.runId ==> a == b
  {
    hide RunGood, ApprovalGood;
  }

  lemma AwaitingRun(s: Store, h: History, r: Run)
    requires RunGood(r, s, h)
    ensures r.status == AwaitingApproval <==>
              exists a :: a in s.approvals && a.runId == r.id && (a.status == Pending || a.status == Expired)
  {
    hide IsCreation, SameRequest, Verdict, ResolveRunProfiles;
    if a :| a in s.approvals && a.runId == r.id {
      assert AsDecided(r, a, h);
    }
  }

  /** Every approved or denied approval was decided by an action of the run that had the matching hash
      and came from an entitled human; it was in time exactly when its clock text could be read. */
  lemma EveryDecisionWasProper(actions: seq<Action>, s: Store, h: History)
    requires Reaches(actions, s, h)
    ensures forall a :: a in s.approvals && (a.status == Approved || a.status == Denied) ==>
              exists d :: d in actions && ProperlyDecided(a, d)
                          && (BeforeExpiry(a.expiresAt, d.decision.now) <==> d.decision.now.Some?)
  {
    RunKeepsInv(actions, s, h);
    hide Inv, RunGood, ApprovalGood, ProperlyDecided, Reaches;
    forall a | a in s.approvals && (a.status == Approved || a.status == Denied)
      ensures exists d :: d in actions && ProperlyDecided(a, d)
                          && (BeforeExpiry(a.expiresAt, d.decision.now) <==> d.decision.now.Some?)
    {
      ApprovalIsGood(s, h, a);
      DecidedProperly(a, s, h);
      DecidedInTime(a, h.decided[a.id]);
      assert h.decided[a.id] in actions;
    }
  }

  lemma ApprovalIsGood(s: Store, h: History, a: Approval)
    requires Inv(s, h) && a in s.approvals
    ensures ApprovalGood(a, s, h)
  {
    hide RunGood, ApprovalGood;
  }

  lemma RunIsGood(s: Store, h: History, r: Run)
    requires Inv(s, h) && r in s.runs
    ensures RunGood(r, s, h)
  {
    hide RunGood, ApprovalGood;
  }

  lemma DecidedProperly(a: Approval, s: Store, h: History)
    requires ApprovalGood(a, s, h) && (a.status == Approved || a.status == Denied)
    ensures a.id in h.decided && ProperlyDecided(a, h.decided[a.id])
  {
    hide ProperlyDecided, IsCreation, Asks, Verdict;
  }

  lemma DecidedInTime(a: Approval, d: Action)
    requires ProperlyDecided(a, d)
    ensures d.Decide? && (BeforeExpiry(a.expiresAt, d.decision.now) <==> d.decision.now.Some?)
  {
  }

  // ---------------------------------------------------------------- a decision at an unreadable time

  const ASK_GRANT := Grant("g", SlackRead, "*", Ask, WriteDraft, true)

  const ONE_PLACE := Settings(
    "o", "agent", "m", "r", [ModelPolicy("m", 1)], ["r"], [], ["p"], [Principal("h", "o", Human)],
    [Bundle("b", "o", "", "", ["p"], [ASK_GRANT], "")])

  const ASKING := Create(
    ONE_PLACE, CreateRunInput("", "p", Some("h"), Some(SlackRead), None, false, Ok("hash"), false),
    "run", "approval", 0)

  /** The clock text of this decision is no date. */
  const DECIDING := Decide(ONE_PLACE, "approval", true, DecisionInput("h", "hash", None, false))

  const ASKED := Approval(
    "approval", "o", "run", WriteDraft, Pending, "hash", "h", None, None, APPROVAL_LIFETIME_MS)

  const APPROVED_UNREAD := ASKED.(
    status := Approved, decidedByPrincipalId := Some("h"), decidedAt := Some(None))

  lemma AskedFor()
    ensures Apply(Store([], [], 0), ASKING).approvals == [ASKED]
  {
    var bundles := ONE_PLACE.accessBundles;
    assert bundles[1..] == [];
    assert BundlesForPlace(bundles, "p") == bundles;
    var request := Request("p", SlackRead, None);
    AskedVerdict(bundles, request);
    hide EvaluatePolicy;
    assert Verdict(ONE_PLACE, ASKING.input) == Some(PolicyDecision(Ask, WriteDraft, true, Some(ASK_GRANT)));
    assert ResolveRunProfiles(ONE_PLACE, Some(SlackRead)).Ok?;
    hide ResolveRunProfiles, Verdict;
  }

  lemma AskedVerdict(bundles: seq<Bundle>, request: Request)
    requires bundles == ONE_PLACE.accessBundles && request == Request("p", SlackRead, None)
    ensures EvaluatePolicy(bundles, request) == PolicyDecision(Ask, WriteDraft, true, Some(ASK_GRANT))
  {
    var grants := [ASK_GRANT];
    assert bundles[1..] == [] && GrantsOf(bundles) == grants + [] == grants;
    assert grants[1..] == [] && Matches(ASK_GRANT, request);
    assert Matching(grants, request) == grants;
    assert Sorting.Sort(grants, MoreSpecificFirst(request)) == grants;
    assert FirstDeny(grants) == FirstDeny([]) == None;
  }

  lemma ReachesTwo(a: Action, b: Action)
    requires Fresh(Store([], [], 0), a) && Fresh(Apply(Store([], [], 0), a), b)
    ensures var empty, past := Store([], [], 0), History(map[], map[]);
            var one, seen := Apply(empty, a), Remember(past, empty, a);
            Reaches([a, b], Apply(one, b), Remember(seen, one, b))
  {
    hide Apply, Remember, Fresh;
    var empty, past := Store([], [], 0), History(map[], map[]);
    var one, seen := Apply(empty, a), Remember(past, empty, a);
    assert [a, b][..1] == [a] && [a][..0] == [];
    assert Reaches([], empty, past);
    assert Reaches([a], one, seen);
  }

  lemma DecidedUnread(s: Store, later: int)
    requires s.approvals == [ASKED] && later >= ASKED.expiresAt
    ensures Apply(s, DECIDING).approvals == [APPROVED_UNREAD]
    ensures DecideApprovalStep(s, ONE_PLACE, "approval", true, DECIDING.decision.(now := Some(later))).0.Err?
  {
    assert ApprovalIndex(s.approvals, "approval") == 0;
    var actor := FindActor(ONE_PLACE.principals, "h", "o");
    assert ONE_PLACE.principals[0] == Principal("h", "o", Human);
    assert actor == Some(Principal("h", "o", Human));
    hide FindActor;
    assert ActorRefusal(ONE_PLACE, ASKED, "h").None?;
    hide ActorRefusal;
    assert [ASKED][0 := APPROVED_UNREAD] == [APPROVED_UNREAD];
  }

  /** From the empty store: an approval is asked for and approved at an unreadable time, which no
      readable time from the expiry on would have been accepted for. */
  lemma UnreadableTimeIsAccepted(later: int)
    requires later >= ASKED.expiresAt
    ensures exists s, h :: Reaches([ASKING, DECIDING], s, h) && s.approvals == [APPROVED_UNREAD]
    ensures DecideApprovalStep(Apply(Store([], [], 0), ASKING), ONE_PLACE, "approval", true,
                               DECIDING.decision.(now := Some(later))).0.Err?
  {
    AskedFor();
    DecidedUnread(Apply(Store([], [], 0), ASKING), later);
    assert Fresh(Store([], [], 0), ASKING);
    hide Apply, Remember, Reaches, DecideApprovalStep;
    ReachesTwo(ASKING, DECIDING);
  }

  ghost predicate ApprovedInline(r: Run, s: Store, actions: seq<Action>) {
    exists a, d :: a in s.approvals && a.runId == r.id && a.status == Approved && d in actions && ProperlyDecided(a, d)
                   && !d.decision.worker
  }

  lemma CompletedByApproval(s: Store, h: History, actions: seq<Action>, r: Run, c: Action, a: Approval)
    requires a in s.approvals && a.runId == r.id && RunGood(r, s, h) && ApprovalGood(a, s, h) && Happened(h, actions)
    requires r.status == Completed && c == h.created[r.id]
    ensures ApprovedInline(r, s, actions) && r.actualCostCents == Max(1, r.estimatedCostCents)
    ensures r.capability.Some? && Verdict(c.settings, c.input).Some?
            && Verdict(c.settings, c.input).value.decision != Deny
  {
    hide ProperlyDecided, ResolveRunProfiles, EvaluatePolicy;
    assert AsDecided(r, a, h);
    assert h.decided[a.id] in actions && ProperlyDecided(a, h.decided[a.id]);
  }

  lemma CompletedInline(r: Run, c: Action)
    requires IsCreation(c) && SameRequest(r, c) && AsCreated(r, c) && r.status == Completed
    ensures r.capability.Some? && Verdict(c.settings, c.input).Some?
            && Verdict(c.settings, c.input).value.decision != Deny
    ensures !Verdict(c.settings, c.input).value.requiresApproval && !c.input.worker
    ensures r.actualCostCents == Max(1, r.estimatedCostCents - 1)
  {
    hide EvaluatePolicy, ResolveRunProfiles;
  }

  lemma CompletedCost(r: Run, c: Action)
    requires IsCreation(c) && SameRequest(r, c)
    requires r.actualCostCents == Max(1, r.estimatedCostCents) || r.actualCostCents == Max(1, r.estimatedCostCents - 1)
    ensures r.actualCostCents >= 1 && (r.actualCostCents <= BudgetAtCreation(c) <==> BudgetAtCreation(c) >= 1)
  {
    hide ResolveRunProfiles;
  }

  /** The per-run budget that was in force when the run was created. */
  function BudgetAtCreation(c: Action): int
    requires IsCreation(c)
  {
    ResolveRunProfiles(c.settings, c.input.capability).value.modelPolicy.perRunBudgetCents
  }

  /** What must be true of a completed run and its creation. */
  ghost predicate EarnedBy(r: Run, c: Action, s: Store, actions: seq<Action>) {
    && IsCreation(c) && c.runId == r.id && SameRequest(r, c) && r.capability.Some?
    && var verdict := Verdict(c.settings, c.input);
    && verdict.Some? && verdict.value.decision != Deny
    && ((!verdict.value.requiresApproval && !c.input.worker) || ApprovedInline(r, s, actions))
    && r.actualCostCents >= 1 && (r.actualCostCents <= BudgetAtCreation(c) <==> BudgetAtCreation(c) >= 1)
  }

  /** A run completes only because policy allowed it inline without approval, or because a proper
      inline approval was given; its cost is positive and within the budget at creation exactly
      when that budget is at least one cent. */
  lemma CompletionIsEarned(actions: seq<Action>, s: Store, h: History, r: Run)
    requires Reaches(actions, s, h) && r in s.runs && r.status == Completed
    ensures exists c :: c in actions && EarnedBy(r, c, s, actions)
  {
    RunKeepsInv(actions, s, h);
    hide Inv, Reaches, RunGood, ApprovalGood, Happened, EarnedBy;
    RunIsGood(s, h, r);
    CompletedRunEarned(s, h, actions, r);
  }

  lemma CompletedRunEarned(s: Store, h: History, actions: seq<Action>, r: Run)
    requires Inv(s, h) && Happened(h, actions) && RunGood(r, s, h) && r.status == Completed
    ensures r.id in h.created && h.created[r.id] in actions && EarnedBy(r, h.created[r.id], s, actions)
  {
    RunCreated(s, h, actions, r);
    hide Inv, RunGood, ApprovalGood, Happened, IsCreation, SameRequest, Asks, AsCreated, EarnedBy;
    var c := h.created[r.id];
    if Asks(c) {
      var a :| a in s.approvals && a.runId == r.id;
      ApprovalIsGood(s, h, a);
      EarnedByApproval(s, h, actions, r, c, a);
    } else {
      EarnedInline(s, actions, r, c);
    }
  }

  lemma EarnedByApproval(s: Store, h: History, actions: seq<Action>, r: Run, c: Action, a: Approval)
    requires a in s.approvals && a.runId == r.id && RunGood(r, s, h) && ApprovalGood(a, s, h) && Happened(h, actions)
    requires r.status == Completed && r.id in h.created && c == h.created[r.id]
    requires IsCreation(c) && c.runId == r.id && SameRequest(r, c)
    ensures EarnedBy(r, c, s, actions)
  {
    CompletedByApproval(s, h, actions, r, c, a);
    CompletedCost(r, c);
    hide RunGood, ApprovalGood, Happened, IsCreation, SameRequest, ApprovedInline, Verdict, BudgetAtCreation;
  }

  lemma EarnedInline(s: Store, actions: seq<Action>, r: Run, c: Action)
    requires IsCreation(c) && c.runId == r.id && SameRequest(r, c) && AsCreated(r, c) && r.status == Completed
    ensures EarnedBy(r, c, s, actions)
  {
    CompletedInline(r, c);
    CompletedCost(r, c);
    hide IsCreation, SameRequest, AsCreated, ApprovedInline, Verdict, BudgetAtCreation;
  }

  lemma RunCreated(s: Store, h: History, actions: seq<Action>, r: Run)
    requires RunGood(r, s, h) && Happened(h, actions)
    ensures r.id in h.created
    ensures var c := h.created[r.id];
            && c in actions && IsCreation(c) && c.runId == r.id && SameRequest(r, c)
            && (Asks(c) ==> exists a :: a in s.approvals && a.runId == r.id) && (!Asks(c) ==> AsCreated(r, c))
  {
    hide IsCreation, Asks, SameRequest, AsCreated, AsDecided;
  }

  function RunFrom(s: Store, actions: seq<Action>): Store
    decreases actions
  {
    if actions == [] then s else RunFrom(Apply(s, actions[0]), actions[1..])
  }

  lemma SettledApprovalStays(s: Store, action: Action, a: Approval)
    requires a in s.approvals && a.status != Pending
    ensures a in Apply(s, action).approvals
  {
    if action.Create? {
      CreateKeepsApprovals(s, action, a);
    } else {
      var j :| 0 <= j < |s.approvals| && s.approvals[j] == a;
      DecideKeepsAt(s, action, j);
      hide Apply;
      assert Apply(s, action).approvals[j] == a;
    }
  }

  lemma CreateKeepsApprovals(s: Store, action: Action, a: Approval)
    requires action.Create? && a in s.approvals
    ensures a in Apply(s, action).approvals
  {
    hide NewRun, NewApproval, Verdict, ResolveRunProfiles, FirstStatus;
    var s' := Apply(s, action);
    assert s'.approvals == s.approvals || s'.approvals == [s'.approvals[0]] + s.approvals;
  }

  lemma DecideKeepsAt(s: Store, action: Action, j: nat)
    requires action.Decide? && j < |s.approvals| && s.approvals[j].status != Pending
    ensures |Apply(s, action).approvals| == |s.approvals| && Apply(s, action).approvals[j] == s.approvals[j]
  {
    hide ActorRefusal, DecidedRun;
  }

  /** A decided or expired approval is never changed by anything that follows. */
  lemma {:induction false} DecidedNeverChanges(s: Store, actions: seq<Action>, a: Approval)
    requires a in s.approvals && a.status != Pending
    ensures a in RunFrom(s, actions).approvals
    decreases actions
  {
    hide Apply;
    if actions != [] {
      SettledApprovalStays(s, actions[0], a);
      DecidedNeverChanges(Apply(s, actions[0]), actions[1..], a);
    }
  }

  predicate Final(status: RunStatus) {
    status == Completed || status == Failed || status == Cancelled
  }

  lemma FinishedRunStays(s: Store, h: History, action: Action, r: Run)
    requires Inv(s, h) && Fresh(s, action) && r in s.runs && Final(r.status)
    ensures r in Apply(s, action).runs
  {
    if action.Create? {
      CreateKeepsRuns(s, action, r);
    } else if Apply(s, action) != s {
      var i := ApprovalIndex(s.approvals, action.approvalId);
      DecideTouches(s, h, action);
      assert Apply(s, action) != s ==> s.approvals[i].status == Pending;
      hide Apply;
      TouchedMembers(s, Apply(s, action), i, RunIndex(s.runs, s.approvals[i].runId));
      if r.id == s.approvals[i].runId {
        AwaitsPending(s, h, r, s.approvals[i]);
      }
    }
  }

  lemma CreateKeepsRuns(s: Store, action: Action, r: Run)
    requires action.Create? && r in s.runs
    ensures r in Apply(s, action).runs
  {
    hide NewRun, Verdict, ResolveRunProfiles;
    var s' := Apply(s, action);
    assert s'.runs == s.runs || s'.runs == [s'.runs[0]] + s.runs;
  }

  lemma AwaitsPending(s: Store, h: History, r: Run, a: Approval)
    requires Inv(s, h) && r in s.runs && a in s.approvals && a.status == Pending && a.runId == r.id
    ensures r.status == AwaitingApproval
  {
    hide IsCreation, Asks, Verdict, ApprovalGood;
    assert RunGood(r, s, h);
  }

  ghost predicate FreshRun(s: Store, actions: seq<Action>)
    decreases actions
  {
    actions != [] ==> Fresh(s, actions[0]) && FreshRun(Apply(s, actions[0]), actions[1..])
  }

  lemma {:induction false} FinishedRunSurvives(s: Store, h: History, more: seq<Action>, r: Run)
    requires Inv(s, h) && FreshRun(s, more) && r in s.runs && Final(r.status)
    ensures r in RunFrom(s, more).runs
    decreases more
  {
    hide Inv, Apply, Remember, Fresh, Final;
    if more != [] {
      FinishedRunStays(s, h, more[0], r);
      StepKeepsInv(s, h, more[0]);
      FinishedRunSurvives(Apply(s, more[0]), Remember(h, s, more[0]), more[1..], r);
    }
  }

  /** Nor does a finished run of a reached store ever change again. */
  lemma FinishedRunsStay(actions: seq<Action>, s: Store, h: History, more: seq<Action>, r: Run)
    requires Reaches(actions, s, h) && FreshRun(s, more) && r in s.runs && Final(r.status)
    ensures r in RunFrom(s, more).runs
  {
    RunKeepsInv(actions, s, h);
    FinishedRunSurvives(s, h, more, r);
  }

  /** The store changes without telling persistence exactly when a decision finds its approval
      expired, or when the caller's payload function throws after the run was listed. */
  lemma UnrecordedExactly(s: Store, action: Action)
    ensures Apply(s, action) != s && Apply(s, action).changes == s.changes <==>
              match action
              case Decide(settings, approvalId, approve, d) =>
                var i := ApprovalIndex(s.approvals, approvalId);
                && i < |s.approvals| && s.approvals[i].status == Pending && s.approvals[i].payloadHash == d.payloadHash
                && Lapsed(s.approvals[i].expiresAt, d.now)
              case Create(settings, input, runId, approvalId, now) =>
                && ResolveRunProfiles(settings, input.capability).Ok? && input.placeScopeId in settings.places
                && FirstStatus(Verdict(settings, input), input.worker, input.deferApproval).None?
                && input.payloadHash.Err?
  {
    var s' := Apply(s, action);
    match action
    case Decide(settings, approvalId, approve, d) =>
      var i := ApprovalIndex(s.approvals, approvalId);
      if i < |s.approvals| && Lapsed(s.approvals[i].expiresAt, d.now) {
        assert s'.approvals[i] != s.approvals[i] || s' == s;
      }
    case Create(settings, input, runId, approvalId, now) =>
      hide Verdict, ResolveRunProfiles, FirstStatus, NewRun;
      assert |s'.runs| == |s.runs| ==> s' == s;
  }
}
