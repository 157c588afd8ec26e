/** Draft pull-request plans: built from a request, turned into an approval payload, and built again
    from that payload when the work is executed. */
module GitHubPlans {
  import opened Wrappers
  import opened Lists
  import opened Text
  import opened Numbers
  import opened BranchNames
  import Sorting

  /** What the code calls out to: the URL parser, the collation of `localeCompare`, the order of
      code units, the hash of a plan's canonical text, and SHA-256. */
  datatype Env = Env(
    parseUrl: string -> Option<RepoRef>, collate: (string, string) -> bool, codeUnits: (string, string) -> bool,
    planHash: (HashInput, seq<string>, Option<string>) -> string, sha256: Digest)

  /** Hashes are hexadecimal digests. */
  ghost predicate HexEnv(env: Env) {
    && IsHexDigest(env.sha256)
    && forall h, files, who :: |env.planHash(h, files, who)| == 64
         && forall c :: c in env.planHash(h, files, who) ==> '0' <= c <= '9' || 'a' <= c <= 'f'
  }

  // ---------------------------------------------------------------- repositories

  datatype RepoRef = RepoRef(owner: string, repo: string)

  /** A repository named by a text or by its parts. */
  datatype RepoInput = ByText(text: string) | ByRef(ref: RepoRef)

  predicate AlphaNumeric(c: char) {
    'a' <= c <= 'z' || '0' <= c <= '9'
  }

  function NormalizeOwner(owner: string): Result<string> {
    var o := Lower(Trim(owner));
    if 1 <= |o| <= 39 && AlphaNumeric(o[0]) && AlphaNumeric(o[|o| - 1])
       && forall c :: c in o ==> AlphaNumeric(c) || c == '-'
    then Ok(o) else Err("GitHub owner must be a valid user or organization name.")
  }

  predicate EndsInGitAnyCase(s: string) {
    |s| >= 4 && s[|s| - 4] == '.' && s[|s| - 3] in "gG" && s[|s| - 2] in "iI" && s[|s| - 1] in "tT"
  }

  function WithoutGit(s: string): string {
    if EndsInGitAnyCase(s) then s[..|s| - 4] else s
  }

  predicate RepoChar(c: char) {
    AlphaNumeric(c) || c == '.' || c == '_' || c == '-'
  }

  function NormalizeRepoName(repo: string): Result<string> {
    var r := Lower(WithoutGit(Trim(repo)));
    if GoodRepoName(r) then Ok(r) else Err("GitHub repo must be a valid repository name.")
  }

  predicate GoodRepoName(r: string) {
    r != "." && r != ".." && 1 <= |r| <= 100 && forall c :: c in r ==> RepoChar(c)
  }

  predicate StartsWithAnyCase(s: string, lower: string) {
    |s| >= |lower| && forall i :: 0 <= i < |lower| ==>
        s[i] == lower[i] || ('a' <= lower[i] <= 'z' && s[i] == lower[i] - 'a' + 'A')
  }

  function PartsFromPath(path: string): Option<RepoRef> {
    var parts := Split(WithoutGit(Trim(path)), '/');
    if |parts| == 2 && parts[0] != "" && parts[1] != "" then Some(RepoRef(parts[0], parts[1])) else None
  }

  function ParseRepoRef(input: string, env: Env): Option<RepoRef> {
    var trimmed := Trim(input);
    if trimmed == "" then None
    else if "github:" <= trimmed then PartsFromPath(trimmed[7..])
    else if StartsWithAnyCase(trimmed, "http://") || StartsWithAnyCase(trimmed, "https://") then env.parseUrl(trimmed)
    else if StartsWithAnyCase(trimmed, "git@github.com:") then PartsFromPath(trimmed[15..])
    else PartsFromPath(trimmed)
  }

  /** The full name, resource and address of a repository are read off its two parts. */
  function ParseRepoResource(input: RepoInput, env: Env): Result<RepoRef> {
    var ref := if input.ByRef? then Some(input.ref) else ParseRepoRef(input.text, env);
    if ref.None? then Err("Expected a GitHub repo resource like github:owner/repo.")
    else
      var owner :- NormalizeOwner(ref.value.owner);
      var repo :- NormalizeRepoName(ref.value.repo);
      Ok(RepoRef(owner, repo))
  }

  function Resource(r: RepoRef): string {
    "github:" + r.owner + "/" + r.repo
  }

  // ---------------------------------------------------------------- numbers

  predicate Digits(s: string) {
    s != "" && forall c :: c in s ==> '0' <= c <= '9'
  }

  function Decimal(s: string): nat {
    if s == "" || !('0' <= s[|s| - 1] <= '9') then 0
    else 10 * Decimal(s[..|s| - 1]) + (s[|s| - 1] - '0') as nat
  }

  /** `String(installationId)` is the argument. */
  function NormalizeInstallationId(installationId: string): Result<string> {
    var id := Trim(installationId);
    if !Digits(id) || Decimal(id) <= 0 then Err("GitHub installation id must be a positive integer.") else Ok(id)
  }

  datatype RepositoryId = IdText(text: string) | IdNumber(value: real)

  function NormalizeRepositoryId(id: RepositoryId): Result<int> {
    match id
    case IdText(text) =>
      if Digits(Trim(text)) && 0 < Decimal(Trim(text)) <= MAX_SAFE_INTEGER then Ok(Decimal(Trim(text)))
      else Err("GitHub repository id must be a positive safe integer.")
    case IdNumber(value) =>
      if value == value.Floor as real && 0 < value.Floor <= MAX_SAFE_INTEGER then Ok(value.Floor)
      else Err("GitHub repository id must be a positive safe integer.")
  }

  function NormalizeOptionalRepositoryId(id: Option<RepositoryId>): Result<Option<int>> {
    if id.None? then Ok(None)
    else
      var n :- NormalizeRepositoryId(id.value);
      Ok(Some(n))
  }

  // ---------------------------------------------------------------- texts and lists

  function NormalizeRequiredText(value: string, what: string): Result<string> {
    if Trim(value) == "" then Err(what + " is required.") else Ok(Trim(value))
  }

  /** Trimmed, or absent when nothing is left. */
  function OptionalText(value: Option<string>): Option<string> {
    if value.None? || Trim(value.value) == "" then None else Some(Trim(value.value))
  }

  function NormalizeStringList(values: seq<string>, what: string): Result<seq<string>> {
    var normalized := NonEmpty(Map(values, TRIMMED));
    if exists v :: v in normalized && |v| > 100 then Err("GitHub " + what + "s must be 100 characters or fewer.")
    else Ok(Unique(normalized))
  }

  function SortedUniqueTexts(values: seq<string>, order: (string, string) -> bool): seq<string> {
    Sorting.Sort(Unique(NonEmpty(Map(values, TRIMMED))), order)
  }

  // ---------------------------------------------------------------- file changes

  datatype FileChange = FileChange(path: string, content: Option<string>, deletion: Option<bool>,
                                   executable: Option<bool>)

  function Slashed(s: string): (r: string)
    ensures |r| == |s| && forall i :: 0 <= i < |s| ==> r[i] == if s[i] == '\\' then '/' else s[i]
  {
    if s == "" then "" else [if s[0] == '\\' then '/' else s[0]] + Slashed(s[1..])
  }

  function NormalizeFilePath(value: string): Result<string> {
    var p := Slashed(Trim(value));
    if p == "" || p[0] == '/' || '\0' in p || exists part :: part in Split(p, '/') && part in ["", ".", ".."] then
      Err("GitHub file path must be a safe relative path.")
    else Ok(p)
  }

  function NormalizeCommitChange(change: FileChange): Result<FileChange> {
    var path :- NormalizeFilePath(change.path);
    var deletion := change.deletion == Some(true);
    if deletion && change.content.Some? then Err("GitHub deleted file changes cannot include content.")
    else if !deletion && change.content.None? then Err("GitHub file changes require content unless deleted.")
    else
      Ok(FileChange(path, if deletion then None else change.content, if deletion then Some(true) else None,
                    if change.executable == Some(true) then Some(true) else None))
  }

  function NormalizeEach(changes: seq<FileChange>): Result<seq<FileChange>> {
    if changes == [] then Ok([])
    else
      var first :- NormalizeCommitChange(changes[0]);
      var rest :- NormalizeEach(changes[1..]);
      Ok([first] + rest)
  }

  function PathOf(): FileChange -> string {
    (change: FileChange) => change.path
  }

  /** The path that occurs a second time first. */
  function DuplicatePath(paths: seq<string>): Option<string> {
    if paths == [] then None
    else
      var n := |paths| - 1;
      var earlier := DuplicatePath(paths[..n]);
      if earlier.Some? then earlier else if paths[n] in paths[..n] then Some(paths[n]) else None
  }

  function NormalizedCommitChanges(changes: seq<FileChange>): Result<seq<FileChange>> {
    if changes == [] then Err("GitHub commit workflow requires at least one file change.")
    else
      var normalized :- NormalizeEach(changes);
      var duplicate := DuplicatePath(Map(normalized, PathOf()));
      if duplicate.Some? then Err("GitHub commit workflow has duplicate path: " + duplicate.value) else Ok(normalized)
  }

  /** Collects the paths in a set and stops at the first that is there already. */
  method FindDuplicatePath(all: seq<string>) returns (duplicate: Option<string>)
    ensures duplicate == DuplicatePath(all)
  {
    var paths: set<string> := {};
    for i := 0 to |all|
      invariant paths == set p | p in all[..i]
      invariant DuplicatePath(all[..i]).None?
    {
      PrefixGrows(all, i);
      assert all[..i + 1][..i] == all[..i];
      if all[i] in paths {
        FirstDuplicate(all, i);
        return Some(all[i]);
      }
      paths := paths + {all[i]};
    }
    assert all[..|all|] == all;
    return None;
  }

  method NormalizeCommitChanges(changes: seq<FileChange>) returns (result: Result<seq<FileChange>>)
    ensures result == NormalizedCommitChanges(changes)
  {
    if changes == [] {
      return Err("GitHub commit workflow requires at least one file change.");
    }
    var normalized :- NormalizeEach(changes);
    var duplicate := FindDuplicatePath(Map(normalized, PathOf()));
    if duplicate.Some? {
      return Err("GitHub commit workflow has duplicate path: " + duplicate.value);
    }
    return Ok(normalized);
  }

  lemma {:induction false} FirstDuplicate(paths: seq<string>, i: nat)
    requires i < |paths| && DuplicatePath(paths[..i]).None? && paths[i] in paths[..i]
    ensures DuplicatePath(paths) == Some(paths[i])
    decreases |paths|
  {
    var n := |paths| - 1;
    if i < n {
      assert paths[..n][..i] == paths[..i];
      FirstDuplicate(paths[..n], i);
    }
  }

  lemma {:induction false} DistinctPathsExactly(paths: seq<string>)
    ensures DuplicatePath(paths).None? <==> NoDuplicates(paths)
  {
    if paths != [] {
      var n := |paths| - 1;
      DistinctPathsExactly(paths[..n]);
      assert paths == paths[..n] + [paths[n]];
    }
  }

  // ---------------------------------------------------------------- the parts of a plan

  datatype HashInput = HashInput(
    repository: RepoRef, title: string, body: string, baseBranch: string, headBranch: string, draft: bool,
    maintainerCanModify: bool, labels: seq<string>, reviewers: seq<string>, installationId: string,
    repositoryId: Option<int>)

  datatype Binding = Binding(hash: string, approvalHashInput: HashInput, files: seq<string>, requester: Option<string>)

  datatype BranchPlan = BranchPlan(
    repository: RepoRef, installationId: string, baseBranch: string, headBranch: string, runId: Option<string>,
    requester: Option<string>)

  datatype CommitPlan = CommitPlan(
    repository: RepoRef, installationId: string, branch: string, message: string, changes: seq<FileChange>,
    runId: Option<string>, requester: Option<string>)

  datatype Proposal = Proposal(
    repository: RepoRef, title: string, body: string, baseBranch: string, headBranch: string, draft: bool,
    maintainerCanModify: bool, labels: seq<string>, reviewers: seq<string>, runId: Option<string>,
    requester: Option<string>)

  /** The permissions requested are always the same three. */
  datatype TokenRequest = TokenRequest(installationId: string, repository: RepoRef, repositoryIds: Option<seq<int>>)

  datatype Choice = CreateNew | ReuseExisting | Conflict

  datatype Resolution = Resolution(decision: Choice, branchName: string, planHash: string, pullRequest: Option<int>)

  datatype Plan = Plan(
    repository: RepoRef, installationId: string, tokenRequest: TokenRequest, branch: BranchPlan, commit: CommitPlan,
    pullRequest: Proposal, approvalHashInput: HashInput, planHashBinding: Binding, branchResolution: Resolution,
    repositoryId: Option<int>, runId: Option<string>, requester: Option<string>)

  datatype ProposalInput = ProposalInput(
    repository: RepoInput, title: string, headBranch: string, baseBranch: Option<string>, body: Option<string>,
    draft: Option<bool>, maintainerCanModify: Option<bool>, labels: Option<seq<string>>, reviewers: Option<seq<string>>,
    runId: Option<string>, requester: Option<string>)

  function CreateBranchPlan(repository: RepoInput, installationId: string, base: Option<string>, head: string,
                            runId: Option<string>, requester: Option<string>, env: Env): Result<BranchPlan> {
    var repo :- ParseRepoResource(repository, env);
    var baseBranch :- NormalizeBranchName(OrElse(base, "main"));
    var headBranch :- NormalizeBranchName(head);
    if baseBranch == headBranch then Err("GitHub branch workflow base and head must be different.")
    else
      var id :- NormalizeInstallationId(installationId);
      Ok(BranchPlan(repo, id, baseBranch, headBranch, OptionalText(runId), OptionalText(requester)))
  }

  function CreateCommitPlan(repository: RepoInput, installationId: string, branch: string, message: string,
                            changes: seq<FileChange>, runId: Option<string>, requester: Option<string>, env: Env)
    : Result<CommitPlan>
  {
    var repo :- ParseRepoResource(repository, env);
    var name :- NormalizeBranchName(branch);
    var text :- NormalizeRequiredText(message, "GitHub commit message");
    var normalized :- NormalizedCommitChanges(changes);
    var id :- NormalizeInstallationId(installationId);
    Ok(CommitPlan(repo, id, name, text, normalized, OptionalText(runId), OptionalText(requester)))
  }

  function CreateProposal(input: ProposalInput, env: Env): Result<Proposal> {
    var repo :- ParseRepoResource(input.repository, env);
    var title :- NormalizeRequiredText(input.title, "PR title");
    var baseBranch :- NormalizeBranchName(OrElse(input.baseBranch, "main"));
    var headBranch :- NormalizeBranchName(input.headBranch);
    if baseBranch == headBranch then Err("PR base and head branches must be different.")
    else
      var labels :- NormalizeStringList(OrElse(input.labels, []), "label");
      var reviewers :- NormalizeStringList(OrElse(input.reviewers, []), "reviewer");
      Ok(Proposal(repo, title, Trim(OrElse(input.body, "")), baseBranch, headBranch, OrElse(input.draft, true),
                  OrElse(input.maintainerCanModify, true), labels, reviewers,
                  OptionalText(input.runId), OptionalText(input.requester)))
  }

  function CreateHashInput(input: ProposalInput, installationId: string, repositoryId: Option<int>, env: Env)
    : Result<HashInput>
  {
    var p :- CreateProposal(input, env);
    var id :- NormalizeInstallationId(installationId);
    var repoId :- NormalizeOptionalRepositoryId(
      if repositoryId.Some? then Some(IdNumber(repositoryId.value as real)) else None);
    Ok(HashInput(p.repository, p.title, p.body, p.baseBranch, p.headBranch, p.draft, p.maintainerCanModify,
                 SortedUniqueTexts(p.labels, env.collate), SortedUniqueTexts(p.reviewers, env.collate), id, repoId))
  }

  function CreateBinding(input: ProposalInput, installationId: string, repositoryId: Option<int>, files: seq<string>,
                         env: Env)
    : Result<Binding>
  {
    var h :- CreateHashInput(input, installationId, repositoryId, env);
    var paths := SortedUniqueTexts(files, env.codeUnits);
    var who := OptionalText(input.requester);
    Ok(Binding(env.planHash(h, paths, who), h, paths, who))
  }

  function CreateTokenRequest(installationId: string, repository: RepoInput, repositoryId: Option<int>, env: Env)
    : Result<TokenRequest>
  {
    var id :- NormalizeInstallationId(installationId);
    var repo :- ParseRepoResource(repository, env);
    var ids :- NormalizeOptionalRepositoryId(
      if repositoryId.Some? then Some(IdNumber(repositoryId.value as real)) else None);
    Ok(TokenRequest(id, repo, if ids.Some? then Some([ids.value]) else None))
  }

  // ---------------------------------------------------------------- existing branches

  datatype PullState = Open | Closed | Merged
  datatype ExistingBranch = ExistingBranch(name: string, planHash: Option<string>)
  datatype ExistingPull = ExistingPull(
    number: int, headBranch: string, baseBranch: Option<string>, state: Option<PullState>, planHash: Option<string>)

  function FindPull(pulls: seq<ExistingPull>, branch: string): Result<Option<ExistingPull>> {
    if pulls == [] then Ok(None)
    else
      var name :- NormalizeBranchName(pulls[0].headBranch);
      if name == branch then Ok(Some(pulls[0])) else FindPull(pulls[1..], branch)
  }

  function FindBranch(branches: seq<ExistingBranch>, branch: string): Result<Option<ExistingBranch>> {
    if branches == [] then Ok(None)
    else
      var name :- NormalizeBranchName(branches[0].name);
      if name == branch then Ok(Some(branches[0])) else FindBranch(branches[1..], branch)
  }

  function ByHash(recorded: Option<string>, planHash: string): Choice {
    if recorded == Some(planHash) then ReuseExisting else Conflict
  }

  function ResolveBranchPlan(branchName: string, base: string, planHash: string, branches: seq<ExistingBranch>,
                             pulls: seq<ExistingPull>): Result<Resolution> {
    var branch :- NormalizeBranchName(branchName);
    var hash :- NormalizeRequiredText(planHash, "GitHub plan hash");
    var baseBranch :- NormalizeBranchName(base);
    var pull :- FindPull(pulls, branch);
    if pull.Some? then
      var pr := pull.value;
      if OrElse(pr.state, Open) == Merged then Ok(Resolution(Conflict, branch, hash, Some(pr.number)))
      else if pr.baseBranch.None? then Ok(Resolution(ByHash(pr.planHash, hash), branch, hash, Some(pr.number)))
      else
        var prBase :- NormalizeBranchName(pr.baseBranch.value);
        if prBase != baseBranch then Ok(Resolution(Conflict, branch, hash, Some(pr.number)))
        else Ok(Resolution(ByHash(pr.planHash, hash), branch, hash, Some(pr.number)))
    else
      var existing :- FindBranch(branches, branch);
      if existing.Some? then Ok(Resolution(ByHash(existing.value.planHash, hash), branch, hash, None))
      else Ok(Resolution(CreateNew, branch, hash, None))
  }

  // ---------------------------------------------------------------- the plan

  datatype PlanInput = PlanInput(
    repository: RepoInput, installationId: string, repositoryId: Option<RepositoryId>, title: string,
    body: Option<string>, baseBranch: Option<string>, headBranch: Option<string>, commitMessage: string,
    changes: seq<FileChange>, draft: Option<bool>, maintainerCanModify: Option<bool>, labels: Option<seq<string>>,
    reviewers: Option<seq<string>>, runId: Option<string>, requester: Option<string>, branchPrefix: Option<string>,
    existingBranches: seq<ExistingBranch>, existingPullRequests: seq<ExistingPull>)

  const PLACEHOLDER_HEAD := "bek/__derive__"

  function DerivationInput(input: PlanInput, repository: RepoRef, title: string, baseBranch: string): ProposalInput {
    ProposalInput(ByRef(repository), title, PLACEHOLDER_HEAD, Some(baseBranch), input.body,
                  Some(OrElse(input.draft, true)), input.maintainerCanModify, input.labels, input.reviewers, None,
                  input.requester)
  }

  function HeadBranch(input: PlanInput, repository: RepoRef, installationId: string, repositoryId: Option<int>,
                      title: string, baseBranch: string, changes: seq<FileChange>, env: Env): Result<string>
    requires HexEnv(env)
  {
    if input.headBranch.Some? then NormalizeBranchName(input.headBranch.value)
    else
      var derivation :- CreateBinding(DerivationInput(input, repository, title, baseBranch), installationId,
                                      repositoryId, Map(changes, PathOf()), env);
      var run := OrElse(OptionalText(input.runId), derivation.hash);
      CreateBranchName(BranchInput(run, derivation.hash, Some(title), input.branchPrefix, None), env.sha256)
  }

  /** The fields of a proposal, as the plan hands them to the hash functions. */
  function Restated(p: Proposal, repository: RepoRef, requester: Option<string>): ProposalInput {
    ProposalInput(ByRef(repository), p.title, p.headBranch, Some(p.baseBranch), Some(p.body), Some(p.draft),
                  Some(p.maintainerCanModify), Some(p.labels), Some(p.reviewers), None, requester)
  }

  /** What is normalised before the head branch can be chosen. */
  datatype Header = Header(
    repository: RepoRef, installationId: string, repositoryId: Option<int>, title: string, baseBranch: string,
    changes: seq<FileChange>)

  function CreateHeader(input: PlanInput, env: Env): Result<Header> {
    var repository :- ParseRepoResource(input.repository, env);
    var installationId :- NormalizeInstallationId(input.installationId);
    var repositoryId :- NormalizeOptionalRepositoryId(input.repositoryId);
    var title :- NormalizeRequiredText(input.title, "PR title");
    var baseBranch :- NormalizeBranchName(OrElse(input.baseBranch, "main"));
    var changes :- NormalizedCommitChanges(input.changes);
    Ok(Header(repository, installationId, repositoryId, title, baseBranch, changes))
  }

  /** The three nested plans; each parses the repository and normalises its fields again. */
  datatype Drafts = Drafts(branch: BranchPlan, commit: CommitPlan, pullRequest: Proposal)

  function CreateDrafts(input: PlanInput, h: Header, headBranch: string, env: Env): Result<Drafts> {
    var branch :- CreateBranchPlan(ByRef(h.repository), h.installationId, input.baseBranch, headBranch, input.runId,
                                   input.requester, env);
    var commit :- CreateCommitPlan(ByRef(h.repository), h.installationId, branch.headBranch, input.commitMessage,
                                   input.changes, input.runId, input.requester, env);
    var pullRequest :- CreateProposal(
      ProposalInput(ByRef(h.repository), input.title, branch.headBranch, Some(branch.baseBranch), input.body,
                    Some(OrElse(input.draft, true)), input.maintainerCanModify, input.labels, input.reviewers,
                    input.runId, input.requester), env);
    Ok(Drafts(branch, commit, pullRequest))
  }

  function CompletePlan(input: PlanInput, h: Header, d: Drafts, env: Env): Result<Plan> {
    var binding :- CreateBinding(Restated(d.pullRequest, h.repository, input.requester), h.installationId,
                                 h.repositoryId, Map(h.changes, PathOf()), env);
    var resolution :- ResolveBranchPlan(d.pullRequest.headBranch, d.pullRequest.baseBranch, binding.hash,
                                        input.existingBranches, input.existingPullRequests);
    if resolution.decision == Conflict then
      Err("GitHub draft PR plan conflicts with an existing branch or pull request.")
    else
      var tokenRequest :- CreateTokenRequest(h.installationId, ByRef(h.repository), h.repositoryId, env);
      var hashInput :- CreateHashInput(Restated(d.pullRequest, h.repository, None), h.installationId, h.repositoryId,
                                       env);
      Ok(Plan(h.repository, h.installationId, tokenRequest, d.branch, d.commit, d.pullRequest, hashInput, binding,
              resolution, h.repositoryId, OptionalText(input.runId), OptionalText(input.requester)))
  }

  function CreatePlan(input: PlanInput, env: Env): Result<Plan>
    requires HexEnv(env)
  {
    var h :- CreateHeader(input, env);
    var headBranch :- HeadBranch(input, h.repository, h.installationId, h.repositoryId, h.title, h.baseBranch,
                                 h.changes, env);
    var drafts :- CreateDrafts(input, h, headBranch, env);
    CompletePlan(input, h, drafts, env)
  }

  datatype Payload = Payload(
    repository: RepoRef, installationId: string, baseBranch: string, headBranch: string, message: string,
    changes: seq<FileChange>, title: string, body: string, draft: bool, maintainerCanModify: bool, labels: seq<string>,
    reviewers: seq<string>, approvalHashInput: HashInput, repositoryId: Option<int>, runId: Option<string>,
    requester: Option<string>)

  function ApprovalPayload(p: Plan): Payload {
    Payload(p.repository, p.installationId, p.branch.baseBranch, p.branch.headBranch, p.commit.message,
            p.commit.changes, p.pullRequest.title, p.pullRequest.body, p.pullRequest.draft,
            p.pullRequest.maintainerCanModify, p.pullRequest.labels, p.pullRequest.reviewers, p.approvalHashInput,
            p.repositoryId, OptionalText(p.runId), OptionalText(p.requester))
  }

  function InputFromPayload(a: Payload): PlanInput {
    PlanInput(ByRef(a.repository), a.installationId,
              if a.repositoryId.Some? then Some(IdNumber(a.repositoryId.value as real)) else None,
              a.title, Some(a.body), Some(a.baseBranch), Some(a.headBranch), a.message, a.changes, Some(a.draft),
              Some(a.maintainerCanModify), Some(a.labels), Some(a.reviewers), a.runId, a.requester, None, [], [])
  }

  function PlanFromPayload(a: Payload, env: Env): Result<Plan>
    requires HexEnv(env)
  {
    CreatePlan(InputFromPayload(a), env)
  }

  // ---------------------------------------------------------------- every normaliser is a fixpoint

  lemma RepoCharIsPlain(c: char)
    requires RepoChar(c)
    ensures !IsSpace(c) && LowerStable(c)
  {
  }

  lemma LowerNames(s: string)
    requires forall c :: c in s ==> RepoChar(c)
    ensures Lower(s) == s && Trim(s) == s
  {
    hide *;
    forall c | c in s ensures !IsSpace(c) && LowerStable(c) {
      RepoCharIsPlain(c);
    }
    LowerOfStable(s);
    assert s != "" ==> s[0] in s && s[|s| - 1] in s;
    EndsTrimmed(s);
  }

  lemma EndsTrimmed(s: string)
    requires s != "" ==> !IsSpace(s[0]) && !IsSpace(s[|s| - 1])
    ensures Trim(s) == s
  {
    hide Trim, IsSpace;
    var t := Trim(s);
  }

  lemma OwnerFixpoint(owner: string)
    requires NormalizeOwner(owner).Ok?
    ensures NormalizeOwner(NormalizeOwner(owner).value) == NormalizeOwner(owner)
  {
    hide Lower, Trim;
    LowerNames(NormalizeOwner(owner).value);
  }

  lemma GitEnding(r: string)
    requires forall c :: c in r ==> RepoChar(c)
    ensures EndsInGitAnyCase(r) <==> EndsWith(r, ".git")
  {
    if |r| >= 4 {
      var tail := r[|r| - 4..];
      assert tail[0] == r[|r| - 4] && tail[1] == r[|r| - 3] && tail[2] == r[|r| - 2] && tail[3] == r[|r| - 1];
      assert r[|r| - 3] in r && r[|r| - 2] in r && r[|r| - 1] in r;
      assert EndsInGitAnyCase(r) ==> tail == ".git";
    }
  }

  lemma RepoNameAgain(repo: string)
    requires NormalizeRepoName(repo).Ok?
    ensures var r := NormalizeRepoName(repo).value;
            && (!EndsWith(r, ".git") ==> NormalizeRepoName(r) == Ok(r))
            && (EndsWith(r, ".git") && NormalizeRepoName(r).Ok? ==> |NormalizeRepoName(r).value| < |r|)
  {
    hide *;
    var r := NormalizeRepoName(repo).value;
    RepoNameIs(repo);
    RepoNameIs(r);
    GoodChars(r);
    LowerNames(r);
    GitEnding(r);
    GitStripped(r);
    LowerNames(WithoutGit(r));
  }

  lemma RepoNameIs(repo: string)
    ensures var r := Lower(WithoutGit(Trim(repo)));
            && (NormalizeRepoName(repo).Ok? <==> GoodRepoName(r))
               && (GoodRepoName(r) ==> NormalizeRepoName(repo) == Ok(r))
  {
    hide Lower, WithoutGit, Trim, GoodRepoName;
  }

  lemma GoodChars(r: string)
    requires GoodRepoName(r)
    ensures forall c :: c in r ==> RepoChar(c)
  {
  }

  lemma GitStripped(r: string)
    ensures EndsInGitAnyCase(r) ==> |WithoutGit(r)| < |r|
    ensures !EndsInGitAnyCase(r) ==> WithoutGit(r) == r
    ensures forall c :: c in WithoutGit(r) ==> c in r
  {
  }

  /** The repository name is the one normaliser that is not idempotent: it is left alone by a second
      pass exactly when no ".git" is left at its end. */
  lemma RepoNameFixpointExactly(repo: string)
    requires NormalizeRepoName(repo).Ok?
    ensures NormalizeRepoName(NormalizeRepoName(repo).value) == NormalizeRepoName(repo)
       <==> !EndsWith(NormalizeRepoName(repo).value, ".git")
  {
    RepoNameAgain(repo);
  }

  /** Such a name: one ".git" is stripped, another stays. */
  lemma RepoNameKeepsGit()
    ensures NormalizeRepoName("x.git.git") == Ok("x.git") && NormalizeRepoName("x.git") == Ok("x")
  {
    hide NormalizeRepoName;
    GitStrippedOnce("x.git");
    GitStrippedOnce("x");
    assert "x.git" + ".git" == "x.git.git" && "x" + ".git" == "x.git";
  }

  lemma GitStrippedOnce(name: string)
    requires GoodRepoName(name)
    ensures NormalizeRepoName(name + ".git") == Ok(name)
  {
    hide Lower, Trim;
    GoodChars(name);
    LowerNames(name);
    LowerNames(name + ".git");
    assert (name + ".git")[..|name|] == name;
  }

  lemma InstallationIdFixpoint(id: string)
    requires NormalizeInstallationId(id).Ok?
    ensures NormalizeInstallationId(NormalizeInstallationId(id).value) == NormalizeInstallationId(id)
  {
  }

  lemma RepositoryIdFixpoint(id: Option<RepositoryId>)
    requires NormalizeOptionalRepositoryId(id).Ok?
    ensures var n := NormalizeOptionalRepositoryId(id).value;
            NormalizeOptionalRepositoryId(if n.Some? then Some(IdNumber(n.value as real)) else None) == Ok(n)
  {
  }

  lemma StringListFixpoint(values: seq<string>, what: string)
    requires NormalizeStringList(values, what).Ok?
    ensures NormalizeStringList(NormalizeStringList(values, what).value, what) == NormalizeStringList(values, what)
  {
    var normalized := NonEmpty(Map(values, TRIMMED));
    var list := NormalizeStringList(values, what).value;
    SelectMembers(Map(values, TRIMMED), IS_NONEMPTY);
    UniqueMembers(normalized);
    forall v | v in list ensures v != "" && Trim(v) == v {
      var i :| 0 <= i < |values| && Map(values, TRIMMED)[i] == v;
      assert v == Trim(values[i]);
    }
    TrimmedList(list);
    UniqueOfUnique(list);
  }

  lemma TrimmedList(list: seq<string>)
    requires forall v :: v in list ==> v != "" && Trim(v) == v
    ensures NonEmpty(Map(list, TRIMMED)) == list
  {
    hide Trim;
    assert forall i :: 0 <= i < |list| ==> list[i] in list && Map(list, TRIMMED)[i] == list[i];
    assert Map(list, TRIMMED) == list;
    SelectAll(list, IS_NONEMPTY);
  }

  lemma {:induction false} SelectAll(list: seq<string>, p: string -> bool)
    requires forall v :: v in list ==> p(v)
    ensures Select(list, p) == list
  {
    if list != [] {
      assert list[0] in list && forall v :: v in list[1..] ==> v in list;
      SelectAll(list[1..], p);
      assert list == [list[0]] + list[1..];
    }
  }

  lemma FilePathFixpoint(value: string)
    requires NormalizeFilePath(value).Ok?
    ensures NormalizeFilePath(NormalizeFilePath(value).value) == NormalizeFilePath(value)
  {
    var t := Trim(value);
    var p := Slashed(t);
    hide Trim, Split, Slashed;
    LastPart(p);
    assert p[0] != '/' && p[|p| - 1] != '/';
    assert p[0] == t[0] && p[|p| - 1] == t[|t| - 1];
    TrimmedStays(t, p);
    SlashedStays(p);
  }

  lemma TrimmedStays(t: string, p: string)
    requires Trimmed(t) && |t| == |p| && p != "" && p[0] == t[0] && p[|p| - 1] == t[|t| - 1]
    ensures Trim(p) == p
  {
  }

  lemma SlashedStays(s: string)
    requires forall i :: 0 <= i < |s| ==> s[i] != '\\'
    ensures Slashed(s) == s
  {
  }

  /** A path that ends in a slash has an empty last part. */
  lemma {:induction false} LastPart(p: string)
    requires p != ""
    ensures p[|p| - 1] == '/' ==> "" in Split(p, '/')
  {
    if |p| == 1 {
      assert p[1..] == "" && Split("", '/') == [""];
    } else {
      LastPart(p[1..]);
      assert p[1..][|p| - 2] == p[|p| - 1];
      var rest := Split(p[1..], '/');
      if p[|p| - 1] == '/' && p[0] != '/' {
        LastPartNotFirst(p[1..]);
        assert rest[0] != "" || "" in rest[1..];
      }
    }
  }

  lemma {:induction false} LastPartNotFirst(p: string)
    requires p != "" && p[|p| - 1] == '/'
    ensures "" in Split(p, '/')[1..]
  {
    if |p| == 1 {
      assert p[1..] == "" && Split("", '/') == [""];
      assert Split(p, '/') == ["", ""];
    } else {
      LastPartNotFirst(p[1..]);
      assert p[1..][|p| - 2] == p[|p| - 1];
      var rest := Split(p[1..], '/');
      assert Split(p, '/')[1..] == if p[0] == '/' then rest else rest[1..];
    }
  }

  lemma ChangeFixpoint(change: FileChange)
    requires NormalizeCommitChange(change).Ok?
    ensures NormalizeCommitChange(NormalizeCommitChange(change).value) == NormalizeCommitChange(change)
  {
    hide NormalizeFilePath;
    var path := NormalizeFilePath(change.path);
    assert path.Ok?;
    FilePathFixpoint(change.path);
  }

  lemma {:induction false} EachFixpoint(changes: seq<FileChange>)
    requires NormalizeEach(changes).Ok?
    ensures |NormalizeEach(changes).value| == |changes|
    ensures NormalizeEach(NormalizeEach(changes).value) == NormalizeEach(changes)
  {
    hide NormalizeCommitChange;
    if changes != [] {
      ChangeFixpoint(changes[0]);
      EachFixpoint(changes[1..]);
      var first, rest := NormalizeCommitChange(changes[0]).value, NormalizeEach(changes[1..]).value;
      assert ([first] + rest)[1..] == rest;
    }
  }

  lemma ChangesFixpoint(changes: seq<FileChange>)
    requires NormalizedCommitChanges(changes).Ok?
    ensures NormalizedCommitChanges(NormalizedCommitChanges(changes).value) == NormalizedCommitChanges(changes)
  {
    hide NormalizeEach;
    EachFixpoint(changes);
  }

  /** What is committed has distinct paths. */
  lemma ChangesHaveDistinctPaths(changes: seq<FileChange>)
    requires NormalizedCommitChanges(changes).Ok?
    ensures NoDuplicates(Map(NormalizedCommitChanges(changes).value, PathOf()))
  {
    DistinctPathsExactly(Map(NormalizedCommitChanges(changes).value, PathOf()));
  }

  // ---------------------------------------------------------------- the shape of a plan

  /** What a plan is made of. `inner` is the repository as the nested plans parse it once more. */
  datatype Parts = Parts(
    repo: RepoRef, inner: RepoRef, installationId: string, repositoryId: Option<int>, title: string, body: string,
    base: string, head: string, message: string, changes: seq<FileChange>, draft: bool, maintainerCanModify: bool,
    labels: seq<string>, reviewers: seq<string>, runId: Option<string>, requester: Option<string>)

  function WrapId(id: Option<int>): Option<RepositoryId> {
    if id.Some? then Some(IdNumber(id.value as real)) else None
  }

  /** Normalising any part once more leaves it alone. */
  ghost predicate Fixed(x: Parts, env: Env) {
    && ParseRepoResource(ByRef(x.repo), env) == Ok(x.inner)
    && NormalizeInstallationId(x.installationId) == Ok(x.installationId)
    && NormalizeOptionalRepositoryId(WrapId(x.repositoryId)) == Ok(x.repositoryId)
    && NormalizeRequiredText(x.title, "PR title") == Ok(x.title) && Trim(x.body) == x.body
    && NormalizeBranchName(x.base) == Ok(x.base) && NormalizeBranchName(x.head) == Ok(x.head) && x.base != x.head
    && NormalizeRequiredText(x.message, "GitHub commit message") == Ok(x.message)
    && NormalizedCommitChanges(x.changes) == Ok(x.changes)
    && NormalizeStringList(x.labels, "label") == Ok(x.labels)
    && NormalizeStringList(x.reviewers, "reviewer") == Ok(x.reviewers)
    && OptionalText(x.runId) == x.runId && OptionalText(x.requester) == x.requester
  }

  lemma FixedIdPositive(x: Parts, env: Env)
    requires Fixed(x, env)
    ensures x.repositoryId.Some? ==> x.repositoryId.value > 0
  {
    hide ParseRepoResource, NormalizeBranchName, NormalizeStringList, Trim, OptionalText, NormalizeRequiredText,
         NormalizedCommitChanges, NormalizeInstallationId, NormalizeOptionalRepositoryId, WrapId;
    IdPositive(x.repositoryId);
  }

  lemma IdPositive(id: Option<int>)
    ensures id.Some? && NormalizeOptionalRepositoryId(WrapId(id)).Ok? ==> id.value > 0
  {
  }

  function ShapedProposal(x: Parts): Proposal {
    Proposal(x.inner, x.title, x.body, x.base, x.head, x.draft, x.maintainerCanModify, x.labels, x.reviewers, x.runId,
             x.requester)
  }

  function ShapedHashInput(x: Parts, env: Env): HashInput {
    HashInput(x.inner, x.title, x.body, x.base, x.head, x.draft, x.maintainerCanModify,
              SortedUniqueTexts(x.labels, env.collate), SortedUniqueTexts(x.reviewers, env.collate), x.installationId,
              x.repositoryId)
  }

  function ShapedBinding(x: Parts, env: Env): Binding {
    var h, paths := ShapedHashInput(x, env), SortedUniqueTexts(Map(x.changes, PathOf()), env.codeUnits);
    Binding(env.planHash(h, paths, x.requester), h, paths, x.requester)
  }

  function ShapedDrafts(x: Parts): Drafts {
    Drafts(BranchPlan(x.inner, x.installationId, x.base, x.head, x.runId, x.requester),
           CommitPlan(x.inner, x.installationId, x.head, x.message, x.changes, x.runId, x.requester),
           ShapedProposal(x))
  }

  function Shape(x: Parts, resolution: Resolution, env: Env): Plan {
    var d := ShapedDrafts(x);
    Plan(x.repo, x.installationId,
         TokenRequest(x.installationId, x.inner, if x.repositoryId.Some? then Some([x.repositoryId.value]) else None),
         d.branch, d.commit, d.pullRequest, ShapedHashInput(x, env), ShapedBinding(x, env), resolution, x.repositoryId,
         x.runId, x.requester)
  }

  function HeaderOf(x: Parts): Header {
    Header(x.repo, x.installationId, x.repositoryId, x.title, x.base, x.changes)
  }

  lemma FixedProposal(x: Parts, runId: Option<string>, who: Option<string>, env: Env)
    requires Fixed(x, env)
    ensures CreateProposal(Restated(ShapedProposal(x), x.repo, who).(runId := runId), env)
         == Ok(ShapedProposal(x).(runId := OptionalText(runId), requester := OptionalText(who)))
  {
    hide ParseRepoResource, NormalizeBranchName, NormalizeStringList, Trim, OptionalText, NormalizeRequiredText,
         NormalizedCommitChanges, NormalizeInstallationId, NormalizeOptionalRepositoryId;
  }

  lemma FixedHashes(x: Parts, who: Option<string>, env: Env)
    requires Fixed(x, env)
    ensures CreateHashInput(Restated(ShapedProposal(x), x.repo, who), x.installationId, x.repositoryId, env)
         == Ok(ShapedHashInput(x, env))
    ensures OptionalText(who) == x.requester ==>
              CreateBinding(Restated(ShapedProposal(x), x.repo, who), x.installationId, x.repositoryId,
                            Map(x.changes, PathOf()), env)
              == Ok(ShapedBinding(x, env))
    ensures CreateTokenRequest(x.installationId, ByRef(x.repo), x.repositoryId, env)
         == Ok(Shape(x, Resolution(CreateNew, "", "", None), env).tokenRequest)
  {
    FixedProposal(x, None, who, env);
    hide ParseRepoResource, NormalizeBranchName, NormalizeStringList, Trim, OptionalText, NormalizeRequiredText,
         NormalizedCommitChanges, NormalizeInstallationId, NormalizeOptionalRepositoryId, CreateProposal,
         SortedUniqueTexts;
  }

  /** From fixed parts, the plan completes to its shape exactly as its branch resolves. */
  lemma CompleteShape(input: PlanInput, x: Parts, env: Env)
    requires Fixed(x, env) && OptionalText(input.requester) == x.requester && OptionalText(input.runId) == x.runId
    ensures var resolved := ResolveBranchPlan(x.head, x.base, ShapedBinding(x, env).hash, input.existingBranches,
                                              input.existingPullRequests);
            CompletePlan(input, HeaderOf(x), ShapedDrafts(x), env)
            == if resolved.Err? then Err(resolved.error)
               else if resolved.value.decision == Conflict then
                 Err("GitHub draft PR plan conflicts with an existing branch or pull request.")
               else Ok(Shape(x, resolved.value, env))
  {
    FixedHashes(x, input.requester, env);
    FixedHashes(x, None, env);
    hide Fixed, CreateBinding, CreateHashInput, CreateTokenRequest, ResolveBranchPlan, OptionalText, ShapedBinding,
         ShapedHashInput;
  }

  // ---------------------------------------------------------------- every plan has this shape

  lemma TextFixpoint(value: string, what: string)
    requires NormalizeRequiredText(value, what).Ok?
    ensures NormalizeRequiredText(NormalizeRequiredText(value, what).value, what) == NormalizeRequiredText(value, what)
  {
    hide Trim;
  }

  lemma OptionalTextFixpoint(value: Option<string>)
    ensures OptionalText(OptionalText(value)) == OptionalText(value)
  {
    hide Trim;
  }

  lemma TrimFixpoint(value: string)
    ensures Trim(Trim(value)) == Trim(value)
  {
    hide Trim;
  }

  /** The parts that a request and its chosen head branch lead to. */
  function PartsOf(input: PlanInput, h: Header, d: Drafts): Parts {
    Parts(h.repository, d.branch.repository, h.installationId, h.repositoryId, h.title, d.pullRequest.body,
          h.baseBranch, d.branch.headBranch, d.commit.message, h.changes, d.pullRequest.draft,
          d.pullRequest.maintainerCanModify, d.pullRequest.labels, d.pullRequest.reviewers, OptionalText(input.runId),
          OptionalText(input.requester))
  }

  /** What the drafts of a header must be, field by field. */
  lemma DraftsAre(input: PlanInput, h: Header, headBranch: string, env: Env)
    requires CreateDrafts(input, h, headBranch, env).Ok?
    ensures var d := CreateDrafts(input, h, headBranch, env).value;
            && CreateBranchPlan(ByRef(h.repository), h.installationId, input.baseBranch, headBranch, input.runId,
                                input.requester, env) == Ok(d.branch)
            && CreateCommitPlan(ByRef(h.repository), h.installationId, d.branch.headBranch, input.commitMessage,
                                input.changes, input.runId, input.requester, env) == Ok(d.commit)
            && CreateProposal(
                 ProposalInput(ByRef(h.repository), input.title, d.branch.headBranch, Some(d.branch.baseBranch),
                               input.body, Some(OrElse(input.draft, true)), input.maintainerCanModify, input.labels,
                               input.reviewers, input.runId, input.requester), env) == Ok(d.pullRequest)
  {
    hide CreateBranchPlan, CreateCommitPlan, CreateProposal;
  }

  lemma HeaderIs(input: PlanInput, h: Header, env: Env)
    requires CreateHeader(input, env) == Ok(h)
    ensures NormalizeInstallationId(input.installationId) == Ok(h.installationId)
    ensures NormalizeOptionalRepositoryId(input.repositoryId) == Ok(h.repositoryId)
    ensures NormalizeRequiredText(input.title, "PR title") == Ok(h.title)
    ensures NormalizeBranchName(OrElse(input.baseBranch, "main")) == Ok(h.baseBranch)
    ensures NormalizedCommitChanges(input.changes) == Ok(h.changes)
  {
    hide ParseRepoResource, NormalizeBranchName, NormalizeRequiredText, NormalizedCommitChanges,
         NormalizeInstallationId, NormalizeOptionalRepositoryId;
  }

  lemma BranchPlanIs(repo: RepoRef, id: string, base: Option<string>, head: string, runId: Option<string>,
                     who: Option<string>, env: Env)
    requires CreateBranchPlan(ByRef(repo), id, base, head, runId, who, env).Ok?
    ensures var b := CreateBranchPlan(ByRef(repo), id, base, head, runId, who, env).value;
            && ParseRepoResource(ByRef(repo), env) == Ok(b.repository)
            && NormalizeInstallationId(id) == Ok(b.installationId)
            && NormalizeBranchName(OrElse(base, "main")) == Ok(b.baseBranch)
            && NormalizeBranchName(head) == Ok(b.headBranch)
            && b.baseBranch != b.headBranch && b.runId == OptionalText(runId) && b.requester == OptionalText(who)
  {
    hide ParseRepoResource, NormalizeBranchName, OptionalText, NormalizeInstallationId;
  }

  lemma CommitPlanIs(repo: RepoRef, id: string, branch: string, message: string, changes: seq<FileChange>,
                     runId: Option<string>, who: Option<string>, env: Env)
    requires CreateCommitPlan(ByRef(repo), id, branch, message, changes, runId, who, env).Ok?
    ensures var c := CreateCommitPlan(ByRef(repo), id, branch, message, changes, runId, who, env).value;
            && ParseRepoResource(ByRef(repo), env) == Ok(c.repository)
            && NormalizeInstallationId(id) == Ok(c.installationId)
            && NormalizeBranchName(branch) == Ok(c.branch)
            && NormalizeRequiredText(message, "GitHub commit message") == Ok(c.message)
            && NormalizedCommitChanges(changes) == Ok(c.changes) && c.runId == OptionalText(runId)
            && c.requester == OptionalText(who)
  {
    hide ParseRepoResource, NormalizeBranchName, OptionalText, NormalizeRequiredText, NormalizedCommitChanges,
         NormalizeInstallationId;
  }

  lemma ProposalIs(input: ProposalInput, env: Env)
    requires CreateProposal(input, env).Ok?
    ensures var p := CreateProposal(input, env).value;
            && ParseRepoResource(input.repository, env) == Ok(p.repository)
            && NormalizeRequiredText(input.title, "PR title") == Ok(p.title)
            && NormalizeBranchName(OrElse(input.baseBranch, "main")) == Ok(p.baseBranch)
            && NormalizeBranchName(input.headBranch) == Ok(p.headBranch) && p.body == Trim(OrElse(input.body, ""))
            && p.draft == OrElse(input.draft, true) && p.maintainerCanModify == OrElse(input.maintainerCanModify, true)
            && NormalizeStringList(OrElse(input.labels, []), "label") == Ok(p.labels)
            && NormalizeStringList(OrElse(input.reviewers, []), "reviewer") == Ok(p.reviewers)
            && p.runId == OptionalText(input.runId) && p.requester == OptionalText(input.requester)
  {
    hide ParseRepoResource, NormalizeBranchName, NormalizeStringList, Trim, OptionalText, NormalizeRequiredText;
  }

  lemma DraftsHaveShape(input: PlanInput, h: Header, headBranch: string, env: Env)
    requires CreateHeader(input, env) == Ok(h) && CreateDrafts(input, h, headBranch, env).Ok?
    ensures var d := CreateDrafts(input, h, headBranch, env).value;
            d == ShapedDrafts(PartsOf(input, h, d)) && Fixed(PartsOf(input, h, d), env)
  {
    hide CreateHeader, CreateDrafts, CreateBranchPlan, CreateCommitPlan, CreateProposal, ParseRepoResource,
         NormalizeBranchName, NormalizeStringList, Trim, OptionalText, NormalizeRequiredText, NormalizedCommitChanges,
         NormalizeInstallationId, NormalizeOptionalRepositoryId;
    var d := CreateDrafts(input, h, headBranch, env).value;
    HeaderIs(input, h, env);
    DraftsAre(input, h, headBranch, env);
    BranchPlanIs(h.repository, h.installationId, input.baseBranch, headBranch, input.runId, input.requester, env);
    CommitPlanIs(h.repository, h.installationId, d.branch.headBranch, input.commitMessage, input.changes, input.runId,
                 input.requester, env);
    ProposalIs(ProposalInput(ByRef(h.repository), input.title, d.branch.headBranch, Some(d.branch.baseBranch),
                             input.body, Some(OrElse(input.draft, true)), input.maintainerCanModify, input.labels,
                             input.reviewers, input.runId, input.requester), env);
    InstallationIdFixpoint(input.installationId);
    BranchNameFixpoint(OrElse(input.baseBranch, "main"));
    BranchNameFixpoint(headBranch);
    RepositoryIdFixpoint(input.repositoryId);
    TextFixpoint(input.title, "PR title");
    TextFixpoint(input.commitMessage, "GitHub commit message");
    ChangesFixpoint(input.changes);
    StringListFixpoint(OrElse(input.labels, []), "label");
    StringListFixpoint(OrElse(input.reviewers, []), "reviewer");
    OptionalTextFixpoint(input.runId);
    OptionalTextFixpoint(input.requester);
    TrimFixpoint(OrElse(input.body, ""));
  }

  lemma HeaderRepository(input: PlanInput, env: Env)
    ensures CreateHeader(input, env).Ok? ==>
              ParseRepoResource(input.repository, env) == Ok(CreateHeader(input, env).value.repository)
  {
    hide ParseRepoResource, NormalizeBranchName, NormalizeRequiredText, NormalizedCommitChanges,
         NormalizeInstallationId, NormalizeOptionalRepositoryId;
  }

  /** So every plan is the shape of fixed parts. */
  lemma PlanHasShape(input: PlanInput, env: Env) returns (x: Parts)
    requires HexEnv(env) && CreatePlan(input, env).Ok?
    ensures var p := CreatePlan(input, env).value;
            && Fixed(x, env) && p == Shape(x, p.branchResolution, env) && p.branchResolution.decision != Conflict
            && ParseRepoResource(input.repository, env) == Ok(x.repo)
            && ResolveBranchPlan(x.head, x.base, ShapedBinding(x, env).hash, input.existingBranches,
                                 input.existingPullRequests)
               == Ok(p.branchResolution)
  {
    HeaderRepository(input, env);
    var h := CreateHeader(input, env).value;
    var head := HeadBranch(input, h.repository, h.installationId, h.repositoryId, h.title, h.baseBranch, h.changes,
                           env).value;
    hide CreateHeader, HeadBranch, CreateDrafts, CompletePlan, Fixed, ShapedDrafts, HexEnv, ParseRepoResource,
         ShapedBinding, ResolveBranchPlan;
    var d := CreateDrafts(input, h, head, env).value;
    x := PartsOf(input, h, d);
    DraftsHaveShape(input, h, head, env);
    CompleteShape(input, x, env);
  }

  // ---------------------------------------------------------------- what is approved is what executes

  function NewBranch(x: Parts, env: Env): Resolution {
    Resolution(CreateNew, x.head, ShapedBinding(x, env).hash, None)
  }

  lemma ResolvesNew(x: Parts, env: Env)
    requires HexEnv(env) && Fixed(x, env)
    ensures ResolveBranchPlan(x.head, x.base, ShapedBinding(x, env).hash, [], []) == Ok(NewBranch(x, env))
  {
    hide Fixed, ShapedBinding, HexEnv, NormalizeBranchName, NormalizeRequiredText, ResolveBranchPlan;
    HashIsText(x, env);
    FixedBranches(x, env);
    ResolveUnknown(x.head, x.base, ShapedBinding(x, env).hash);
  }

  lemma ResolveUnknown(head: string, base: string, hash: string)
    requires NormalizeBranchName(head) == Ok(head) && NormalizeBranchName(base) == Ok(base)
    requires NormalizeRequiredText(hash, "GitHub plan hash") == Ok(hash)
    ensures ResolveBranchPlan(head, base, hash, [], []) == Ok(Resolution(CreateNew, head, hash, None))
  {
    hide NormalizeBranchName, NormalizeRequiredText;
  }

  lemma HashIsText(x: Parts, env: Env)
    requires HexEnv(env)
    ensures NormalizeRequiredText(ShapedBinding(x, env).hash, "GitHub plan hash") == Ok(ShapedBinding(x, env).hash)
  {
    hide Trim, ShapedHashInput, SortedUniqueTexts;
    var b := ShapedBinding(x, env);
    assert b.hash == env.planHash(b.approvalHashInput, b.files, b.requester);
    HexTrimmed(b.hash);
  }

  lemma HexTrimmed(hash: string)
    requires forall c :: c in hash ==> '0' <= c <= '9' || 'a' <= c <= 'f'
    ensures Trim(hash) == hash
  {
    assert forall c :: c in hash ==> RepoChar(c);
    LowerNames(hash);
  }

  lemma FixedBranches(x: Parts, env: Env)
    requires Fixed(x, env)
    ensures NormalizeBranchName(x.head) == Ok(x.head) && NormalizeBranchName(x.base) == Ok(x.base)
  {
  }

  function Rebuild(x: Parts, resolution: Resolution, env: Env): PlanInput {
    InputFromPayload(ApprovalPayload(Shape(x, resolution, env)))
  }

  lemma RebuiltHeader(x: Parts, resolution: Resolution, repository: RepoInput, env: Env)
    requires Fixed(x, env) && ParseRepoResource(repository, env) == Ok(x.repo)
    ensures CreateHeader(Rebuild(x, resolution, env).(repository := repository), env) == Ok(HeaderOf(x))
  {
    hide ParseRepoResource, NormalizeBranchName, NormalizeStringList, Trim, OptionalText, NormalizeRequiredText,
         NormalizedCommitChanges, NormalizeInstallationId, NormalizeOptionalRepositoryId, ShapedBinding,
         ShapedHashInput;
  }

  lemma RebuiltPeople(x: Parts, resolution: Resolution, env: Env)
    requires Fixed(x, env)
    ensures var input := Rebuild(x, resolution, env);
            && OptionalText(input.requester) == x.requester && OptionalText(input.runId) == x.runId
            && input.headBranch == Some(x.head) && input.existingBranches == [] && input.existingPullRequests == []
  {
    hide OptionalText, ShapedBinding, ShapedHashInput;
  }

  lemma FixedBranchPlan(x: Parts, runId: Option<string>, who: Option<string>, env: Env)
    requires Fixed(x, env)
    ensures CreateBranchPlan(ByRef(x.repo), x.installationId, Some(x.base), x.head, runId, who, env)
         == Ok(BranchPlan(x.inner, x.installationId, x.base, x.head, OptionalText(runId), OptionalText(who)))
  {
    hide ParseRepoResource, NormalizeBranchName, NormalizeStringList, Trim, OptionalText, NormalizeRequiredText,
         NormalizedCommitChanges, NormalizeInstallationId, NormalizeOptionalRepositoryId;
  }

  lemma FixedCommitPlan(x: Parts, runId: Option<string>, who: Option<string>, env: Env)
    requires Fixed(x, env)
    ensures CreateCommitPlan(ByRef(x.repo), x.installationId, x.head, x.message, x.changes, runId, who, env)
         == Ok(CommitPlan(x.inner, x.installationId, x.head, x.message, x.changes, OptionalText(runId),
                          OptionalText(who)))
  {
    hide ParseRepoResource, NormalizeBranchName, NormalizeStringList, Trim, OptionalText, NormalizeRequiredText,
         NormalizedCommitChanges, NormalizeInstallationId, NormalizeOptionalRepositoryId;
  }

  lemma DraftsFrom(input: PlanInput, h: Header, head: string, d: Drafts, env: Env)
    requires CreateBranchPlan(ByRef(h.repository), h.installationId, input.baseBranch, head, input.runId,
                              input.requester, env) == Ok(d.branch)
    requires CreateCommitPlan(ByRef(h.repository), h.installationId, d.branch.headBranch, input.commitMessage,
                              input.changes, input.runId, input.requester, env) == Ok(d.commit)
    requires CreateProposal(
               ProposalInput(ByRef(h.repository), input.title, d.branch.headBranch, Some(d.branch.baseBranch),
                             input.body, Some(OrElse(input.draft, true)), input.maintainerCanModify, input.labels,
                             input.reviewers, input.runId, input.requester), env) == Ok(d.pullRequest)
    ensures CreateDrafts(input, h, head, env) == Ok(d)
  {
    hide CreateBranchPlan, CreateCommitPlan, CreateProposal;
  }

  lemma RebuiltFields(x: Parts, resolution: Resolution, env: Env)
    ensures var input := Rebuild(x, resolution, env);
            && input.baseBranch == Some(x.base) && input.commitMessage == x.message && input.changes == x.changes
            && input.title == x.title && input.body == Some(x.body) && input.draft == Some(x.draft)
            && input.maintainerCanModify == Some(x.maintainerCanModify) && input.labels == Some(x.labels)
            && input.reviewers == Some(x.reviewers)
  {
    hide OptionalText, ShapedBinding, ShapedHashInput;
  }

  lemma RebuiltDrafts(x: Parts, resolution: Resolution, repository: RepoInput, env: Env)
    requires Fixed(x, env)
    ensures CreateDrafts(Rebuild(x, resolution, env).(repository := repository), HeaderOf(x), x.head, env)
         == Ok(ShapedDrafts(x))
  {
    var input := Rebuild(x, resolution, env).(repository := repository);
    RebuiltPeople(x, resolution, env);
    RebuiltFields(x, resolution, env);
    FixedBranchPlan(x, input.runId, input.requester, env);
    FixedCommitPlan(x, input.runId, input.requester, env);
    FixedProposal(x, input.runId, input.requester, env);
    hide Fixed, OptionalText, Rebuild, CreateBranchPlan, CreateCommitPlan, CreateProposal, CreateDrafts;
    DraftsFrom(input, HeaderOf(x), x.head, ShapedDrafts(x), env);
  }

  /** Conversely, fixed parts make a plan of their shape, from any name of their repository. */
  lemma FixedPartsMakePlan(x: Parts, resolution: Resolution, repository: RepoInput, env: Env)
    requires HexEnv(env) && Fixed(x, env) && ParseRepoResource(repository, env) == Ok(x.repo)
    ensures CreatePlan(Rebuild(x, resolution, env).(repository := repository), env)
         == Ok(Shape(x, NewBranch(x, env), env))
  {
    var input := Rebuild(x, resolution, env).(repository := repository);
    RebuiltHeader(x, resolution, repository, env);
    RebuiltDrafts(x, resolution, repository, env);
    RebuiltPeople(x, resolution, env);
    CompleteShape(input, x, env);
    ResolvesNew(x, env);
    FixedBranches(x, env);
    hide CreateHeader, CreateDrafts, CompletePlan, Fixed, ShapedDrafts, HexEnv, Shape, NormalizeBranchName,
         ShapedBinding, ResolveBranchPlan, ParseRepoResource;
  }

  /** Building again from the payload of a shape whose repository is a fixpoint too. */
  lemma ShapeRebuilds(x: Parts, resolution: Resolution, env: Env)
    requires HexEnv(env) && Fixed(x, env) && x.inner == x.repo
    ensures PlanFromPayload(ApprovalPayload(Shape(x, resolution, env)), env) == Ok(Shape(x, NewBranch(x, env), env))
  {
    FixedRepository(x, env);
    hide Fixed, Shape, HexEnv, ParseRepoResource, CreatePlan, NewBranch;
    FixedPartsMakePlan(x, resolution, ByRef(x.repo), env);
    assert Rebuild(x, resolution, env).(repository := ByRef(x.repo)) == Rebuild(x, resolution, env) by {
      RebuiltFrom(x, resolution, env);
    }
  }

  lemma RebuiltFrom(x: Parts, resolution: Resolution, env: Env)
    ensures Rebuild(x, resolution, env).repository == ByRef(x.repo)
  {
  }

  /** What a parsed repository becomes when it is parsed again. */
  lemma ParsedAgain(input: RepoInput, env: Env)
    requires ParseRepoResource(input, env).Ok?
    ensures var r := ParseRepoResource(input, env).value; var again := ParseRepoResource(ByRef(r), env);
            && (!EndsWith(r.repo, ".git") ==> again == Ok(r))
            && (EndsWith(r.repo, ".git") && again.Ok? ==> again.value != r)
  {
    hide NormalizeOwner, NormalizeRepoName, ParseRepoRef, EndsWith;
    var ref := if input.ByRef? then input.ref else ParseRepoRef(input.text, env).value;
    OwnerFixpoint(ref.owner);
    RepoNameAgain(ref.repo);
  }

  lemma ResolutionNames(branchName: string, base: string, planHash: string, branches: seq<ExistingBranch>,
                        pulls: seq<ExistingPull>)
    requires ResolveBranchPlan(branchName, base, planHash, branches, pulls).Ok?
    ensures var r := ResolveBranchPlan(branchName, base, planHash, branches, pulls).value;
            && Ok(r.branchName) == NormalizeBranchName(branchName)
            && Ok(r.planHash) == NormalizeRequiredText(planHash, "GitHub plan hash")
            && (r.decision == CreateNew ==> r.pullRequest.None?)
  {
    hide NormalizeBranchName, NormalizeRequiredText, FindPull, FindBranch;
  }

  function AsNew(p: Plan): Plan {
    p.(branchResolution := Resolution(CreateNew, p.branch.headBranch, p.planHashBinding.hash, None))
  }

  /** Rebuilding a plan from its approval payload gives the same plan, head branch, hash input and
      plan hash included, with its branch to be created anew, exactly when the parsed name of the
      repository does not end in ".git". */
  lemma ApprovedIsExecutedExactly(input: PlanInput, env: Env)
    requires HexEnv(env) && CreatePlan(input, env).Ok?
    ensures var p := CreatePlan(input, env).value;
            PlanFromPayload(ApprovalPayload(p), env) == Ok(AsNew(p)) <==> !EndsWith(p.repository.repo, ".git")
  {
    var p := CreatePlan(input, env).value;
    var x := PlanHasShape(input, env);
    ParsedAgain(input.repository, env);
    FixedRepository(x, env);
    if x.inner == x.repo {
      ShapeRebuilds(x, p.branchResolution, env);
      AsNewShape(x, p.branchResolution, env);
    }
    RebuiltRepository(p, env);
    hide CreatePlan, PlanFromPayload, ApprovalPayload, Fixed, ParseRepoResource, EndsWith, HexEnv, NewBranch,
         ShapedBinding, ShapedHashInput, ShapedDrafts;
  }

  lemma FixedRepository(x: Parts, env: Env)
    requires Fixed(x, env)
    ensures ParseRepoResource(ByRef(x.repo), env) == Ok(x.inner)
  {
  }

  lemma AsNewShape(x: Parts, resolution: Resolution, env: Env)
    ensures AsNew(Shape(x, resolution, env)) == Shape(x, NewBranch(x, env), env)
  {
    hide ShapedHashInput;
  }

  lemma RebuiltRepository(p: Plan, env: Env)
    requires HexEnv(env)
    ensures PlanFromPayload(ApprovalPayload(p), env).Ok? ==>
              ParseRepoResource(ByRef(p.repository), env)
                   == Ok(PlanFromPayload(ApprovalPayload(p), env).value.repository)
  {
    var input := InputFromPayload(ApprovalPayload(p));
    hide CreateHeader, HeadBranch, CreateDrafts, CompletePlan, ParseRepoResource, HexEnv;
    HeaderRepository(input, env);
    if CreateHeader(input, env).Ok? {
      CompletedRepository(input, CreateHeader(input, env).value, env);
    }
  }

  lemma CompletedRepository(input: PlanInput, h: Header, env: Env)
    ensures forall d :: CompletePlan(input, h, d, env).Ok? ==>
              CompletePlan(input, h, d, env).value.repository == h.repository
  {
    hide CreateBinding, CreateHashInput, CreateTokenRequest, ResolveBranchPlan;
  }

  /** A plan that created its branch anew is rebuilt entirely equal. */
  lemma NewPlanIsRebuilt(input: PlanInput, env: Env)
    requires HexEnv(env) && CreatePlan(input, env).Ok?
    requires CreatePlan(input, env).value.branchResolution.decision == CreateNew
    requires !EndsWith(CreatePlan(input, env).value.repository.repo, ".git")
    ensures PlanFromPayload(ApprovalPayload(CreatePlan(input, env).value), env) == CreatePlan(input, env)
  {
    var p := CreatePlan(input, env).value;
    var x := PlanHasShape(input, env);
    ApprovedIsExecutedExactly(input, env);
    ResolutionNames(x.head, x.base, ShapedBinding(x, env).hash, input.existingBranches, input.existingPullRequests);
    ResolutionNames(x.head, x.base, ShapedBinding(x, env).hash, [], []);
    ResolvesNew(x, env);
    AsNewShape(x, p.branchResolution, env);
    hide CreatePlan, PlanFromPayload, ApprovalPayload, Fixed, ParseRepoResource, EndsWith, HexEnv, ShapedBinding,
         ShapedHashInput, ShapedDrafts, ResolveBranchPlan, NormalizeBranchName, NormalizeRequiredText;
  }

  // ---------------------------------------------------------------- a plan that changes

  const GIT_PARTS := Parts(
    RepoRef("o", "x.git"), RepoRef("o", "x"), "1", None, "t", "", "main", "h", "m",
    [FileChange("f", Some(""), None, None)], true, true, [], [], None, None)

  /** Another commit to the same path, of another run. */
  const DELETING_PARTS := GIT_PARTS.(
    message := "n", changes := [FileChange("f", None, Some(true), None)], runId := Some("r"))

  lemma ShortBranch(name: string)
    requires name != "" && |name| <= 4 && forall c :: c in name ==> 'a' <= c <= 'z'
    ensures NormalizeBranchName(name) == Ok(name)
  {
    hide NormalizeBranchName, AnyPart;
    assert Join([name], "/") == name;
    forall i | 0 <= i < |name| ensures name[i] != '.' && SegmentChar(name[i]) {
      assert name[i] in name;
    }
    assert forall part :: part in [name] ==> part == name;
    assert !AnyPart([name], ENDS_LOCKED) by {
      NoneLocked(name);
    }
    PartsMakeRef([name]);
  }

  lemma NoneLocked(name: string)
    requires |name| <= 4
    ensures !AnyPart([name], ENDS_LOCKED)
  {
    assert forall part :: part in [name] ==> part == name;
  }

  lemma ShortText(text: string, what: string)
    requires text != "" && forall c :: c in text ==> RepoChar(c)
    ensures NormalizeRequiredText(text, what) == Ok(text)
  {
    LowerNames(text);
  }

  lemma OwnerO()
    ensures NormalizeOwner("o") == Ok("o")
  {
    hide Lower, Trim;
    LowerNames("o");
  }

  lemma ParsedRef(owner: string, repo: string, env: Env)
    requires NormalizeOwner(owner).Ok? && NormalizeRepoName(repo).Ok?
    ensures ParseRepoResource(ByRef(RepoRef(owner, repo)), env)
         == Ok(RepoRef(NormalizeOwner(owner).value, NormalizeRepoName(repo).value))
  {
    hide NormalizeOwner, NormalizeRepoName;
  }

  lemma GitRepositories(env: Env)
    ensures ParseRepoResource(ByRef(RepoRef("o", "x.git.git")), env) == Ok(GIT_PARTS.repo)
    ensures ParseRepoResource(ByRef(GIT_PARTS.repo), env) == Ok(GIT_PARTS.inner)
    ensures EndsWith(GIT_PARTS.repo.repo, ".git")
  {
    hide NormalizeRepoName, NormalizeOwner, ParseRepoResource, EndsWith;
    EndsWithTail("x", ".git");
    assert "x" + ".git" == "x.git";
    RepoNameKeepsGit();
    OwnerO();
    ParsedRef("o", "x.git.git", env);
    ParsedRef("o", "x.git", env);
  }

  lemma GitPath()
    ensures NormalizeFilePath("f") == Ok("f")
  {
    hide Trim;
    LowerNames("f");
    assert Slashed("f") == "f" && "f"[1..] == "" && Split("f", '/') == ["f"];
  }

  lemma OneChange(change: FileChange)
    requires NormalizeCommitChange(change) == Ok(change)
    ensures NormalizedCommitChanges([change]) == Ok([change])
  {
    hide NormalizeCommitChange;
    var one := [change];
    assert one[1..] == [] && [change] + [] == one && NormalizeEach([]) == Ok([]);
    assert NormalizeEach(one) == Ok(one);
    var paths := Map(one, PathOf());
    assert paths[..0] == [] && |paths| == 1;
    assert DuplicatePath(paths).None?;
  }

  lemma GitChanges()
    ensures NormalizedCommitChanges(GIT_PARTS.changes) == Ok(GIT_PARTS.changes)
    ensures NormalizedCommitChanges(DELETING_PARTS.changes) == Ok(DELETING_PARTS.changes)
  {
    GitPath();
    hide NormalizeFilePath, NormalizedCommitChanges;
    OneChange(GIT_PARTS.changes[0]);
    OneChange(DELETING_PARTS.changes[0]);
  }

  lemma GitNumbersAndLists()
    ensures NormalizeInstallationId("1") == Ok("1")
    ensures NormalizeStringList([], "label") == Ok([]) && NormalizeStringList([], "reviewer") == Ok([])
  {
    hide Trim;
    LowerNames("1");
    assert Decimal("1") == 1;
    assert Map([], TRIMMED) == [];
  }

  lemma GitPartsFixed(env: Env)
    ensures Fixed(GIT_PARTS, env)
  {
    hide ParseRepoResource, NormalizeBranchName, NormalizeRequiredText, NormalizedCommitChanges,
         NormalizeInstallationId, NormalizeStringList;
    GitRepositories(env);
    GitChanges();
    GitNumbersAndLists();
    ShortBranch("main");
    ShortBranch("h");
    ShortText("t", "PR title");
    ShortText("m", "GitHub commit message");
  }

  lemma FixedCommit(x: Parts, message: string, changes: seq<FileChange>, runId: Option<string>, env: Env)
    requires Fixed(x, env) && NormalizeRequiredText(message, "GitHub commit message") == Ok(message)
    requires NormalizedCommitChanges(changes) == Ok(changes) && OptionalText(runId) == runId
    ensures Fixed(x.(message := message, changes := changes, runId := runId), env)
  {
    hide ParseRepoResource, NormalizeBranchName, NormalizeRequiredText, NormalizedCommitChanges,
         NormalizeInstallationId, NormalizeStringList, NormalizeOptionalRepositoryId, Trim, OptionalText;
  }

  lemma DeletingPartsFixed(env: Env)
    ensures Fixed(DELETING_PARTS, env)
  {
    hide Fixed, NormalizedCommitChanges, NormalizeRequiredText, OptionalText;
    GitPartsFixed(env);
    GitChanges();
    ShortText("n", "GitHub commit message");
    ShortRun();
    FixedCommit(GIT_PARTS, "n", DELETING_PARTS.changes, Some("r"), env);
  }

  lemma ShortRun()
    ensures OptionalText(Some("r")) == Some("r")
  {
    hide Trim;
    LowerNames("r");
  }

  /** A request for o/x.git.git that writes an empty file f. */
  const GIT_REQUEST := PlanInput(
    ByRef(RepoRef("o", "x.git.git")), "1", None, "t", Some(""), Some("main"), Some("h"), "m",
    [FileChange("f", Some(""), None, None)], Some(true), Some(true), Some([]), Some([]), None, None, None, [], [])

  /** The same request, but for another run that deletes f under another commit message. */
  const DELETING_REQUEST := GIT_REQUEST.(
    commitMessage := "n", changes := [FileChange("f", None, Some(true), None)], runId := Some("r"))

  lemma RebuiltIs(x: Parts, resolution: Resolution, env: Env)
    ensures Rebuild(x, resolution, env)
         == PlanInput(ByRef(x.repo), x.installationId, WrapId(x.repositoryId), x.title, Some(x.body), Some(x.base),
                      Some(x.head), x.message, x.changes, Some(x.draft), Some(x.maintainerCanModify), Some(x.labels),
                      Some(x.reviewers), OptionalText(x.runId), OptionalText(x.requester), None, [], [])
  {
    hide OptionalText, ShapedBinding, ShapedHashInput;
  }

  lemma RequestsFromParts(resolution: Resolution, env: Env)
    ensures Rebuild(GIT_PARTS, resolution, env).(repository := ByRef(RepoRef("o", "x.git.git"))) == GIT_REQUEST
    ensures Rebuild(DELETING_PARTS, resolution, env).(repository := ByRef(RepoRef("o", "x.git.git")))
         == DELETING_REQUEST
  {
    ShortRun();
    RebuiltIs(GIT_PARTS, resolution, env);
    RebuiltIs(DELETING_PARTS, resolution, env);
    hide Rebuild, Trim;
  }

  /** A request whose plan is not rebuilt: its repository is parsed as o/x.git, and from the payload as
      o/x. */
  lemma GitPlanChanges(env: Env)
    requires HexEnv(env)
    ensures CreatePlan(GIT_REQUEST, env).Ok?
    ensures PlanFromPayload(ApprovalPayload(CreatePlan(GIT_REQUEST, env).value), env)
         != Ok(AsNew(CreatePlan(GIT_REQUEST, env).value))
  {
    hide CreatePlan, PlanFromPayload, ApprovalPayload, Fixed, ParseRepoResource, EndsWith, HexEnv, ShapedBinding,
         NewBranch, ShapedHashInput, ShapedDrafts, Rebuild;
    GitPartsFixed(env);
    GitRepositories(env);
    var any := Resolution(CreateNew, "", "", None);
    RequestsFromParts(any, env);
    FixedPartsMakePlan(GIT_PARTS, any, GIT_REQUEST.repository, env);
    ApprovedIsExecutedExactly(GIT_REQUEST, env);
  }

  lemma ShapeOf(x: Parts, resolution: Resolution, env: Env)
    ensures var p := Shape(x, resolution, env);
            && p.planHashBinding == ShapedBinding(x, env) && p.runId == x.runId
            && p.commit.message == x.message && p.commit.changes == x.changes
  {
    hide ShapedBinding, ShapedHashInput;
  }

  lemma SamePaths(env: Env)
    ensures ShapedBinding(GIT_PARTS, env) == ShapedBinding(DELETING_PARTS, env)
  {
    hide SortedUniqueTexts;
    assert Map(GIT_PARTS.changes, PathOf()) == Map(DELETING_PARTS.changes, PathOf());
  }

  /** The two requests share their plan hash: one writes a file, the other deletes it under another
      commit message and for another run. */
  lemma SameHashOtherCommit(env: Env)
    requires HexEnv(env)
    ensures CreatePlan(GIT_REQUEST, env).Ok? && CreatePlan(DELETING_REQUEST, env).Ok?
    ensures var p, q := CreatePlan(GIT_REQUEST, env).value, CreatePlan(DELETING_REQUEST, env).value;
            && p.planHashBinding == q.planHashBinding && p.runId != q.runId
            && p.commit.message != q.commit.message && p.commit.changes != q.commit.changes
            && p.commit.changes == GIT_REQUEST.changes && q.commit.changes == DELETING_REQUEST.changes
  {
    hide CreatePlan, Fixed, ParseRepoResource, HexEnv, Shape, ShapedBinding, NewBranch, Rebuild;
    GitPartsFixed(env);
    DeletingPartsFixed(env);
    GitRepositories(env);
    SamePaths(env);
    var any := Resolution(CreateNew, "", "", None);
    RequestsFromParts(any, env);
    FixedPartsMakePlan(GIT_PARTS, any, GIT_REQUEST.repository, env);
    FixedPartsMakePlan(DELETING_PARTS, any, GIT_REQUEST.repository, env);
    ShapeOf(GIT_PARTS, NewBranch(GIT_PARTS, env), env);
    ShapeOf(DELETING_PARTS, NewBranch(DELETING_PARTS, env), env);
  }
}
