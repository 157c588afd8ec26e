# Bek control-plane verification

A Dafny model of the protocols and transformations at the heart of Bek, the control plane behind
a Slack agent, with proofs about every run, every interleaving and every input.

The model follows the program's own split. Code made of expressions is a function with lemmas;
code that updates state is a class or a method with loops, and each such method is proved against
a step function. Theorems about many steps are then proved over all sequences of step functions.

| file | what it models |
|---|---|
| `WorkerQueue.dfy` | claim, heartbeat and lease expiry over the persisted work rows |
| `ReplicaMerge.dfy` | merging worker snapshots, and writing them row by row |
| `PersistenceChain.dfy` | the store's promise chain of snapshot saves |
| `Approvals.dfy` | runs, approvals and their decisions |
| `Ingress.dfy` | deduplication of Slack and GitHub deliveries, with rollback |
| `Outbound.dfy` | outbound Slack deliveries under concurrent drains, and the posting loop |
| `Grants.dfy`, `Policy.dfy`, `AccessRows.dfy` | editing grants, deciding by them, storing them as rows |
| `CanonicalJson.dfy`, `PlanHash.dfy` | the canonical text that is hashed, and what a plan hash binds |
| `GitHubPlans.dfy`, `BranchNames.dfy` | draft pull-request plans, approval payloads, branch names |
| `ModelRouting.dfy`, `Failover.dfy` | pricing, ranking and selecting models; failover and the cost ledger |
| `ModelUsage.dfy`, `SnapshotSave.dfy` | the usage table, its write queue and summaries, and saving a snapshot around it |
| `CredentialBroker.dfy` | credential leases and credential health |
| `RateLimiter.dfy` | the fixed-window limiter |
| `Csv.dfy` | the audit export and a reader for it |
| `Wrappers.dfy`, `Numbers.dfy`, `Lists.dfy`, `Sorting.dfy`, `Text.dfy` | options and results, and the JavaScript list, sort and string operations |

Clocks, fresh ids, hashes, collation orders, the URL parser and the outcomes of databases,
gateways, sinks and Slack calls are parameters, so every theorem holds for all of them. A database
transaction is one step. Times are integer milliseconds, money is whole cents, scores and prices
are real numbers.

Some statements that look natural are false of the code. Each is stated with the exact condition
under which it holds:

- An exact grant beats every wildcard only for resources of at most 998 characters
  (`Policy.RuleHoldsExactlyTo998`).
- A plan rebuilt from its approval payload is the approved plan exactly when the parsed repository
  name does not still end in `.git` (`GitHubPlans.ApprovedIsExecutedExactly`). The comment at
  `packages/github/src/workflows.ts:334-336` promises it always is; the model follows the code.
- A generated branch name is accepted exactly when no component of the sanitised prefix ends in
  `.lock` (`BranchNames.GeneratedNameExactly`). The comment at
  `packages/github/src/branches.ts:23-28` promises a valid name always; the prefix `x.lock` has none
  (`BranchNames.LockedNameRefused`).
- The hash of a draft plan stands for the paths of its changes, and for nothing else of the commit: not
  the contents, deletions, message or run (`PlanHash.EqualPlanHashesExactly`,
  `GitHubPlans.SameHashOtherCommit`).
- A store flush that returns has saved every earlier snapshot exactly when no earlier save failed
  (`PersistenceChain.ReturningFlushExactly`); a usage flush that returns has written every earlier
  write exactly when it did not join a flush that had already ended
  (`ModelUsage.ReturningFlushExactly`).
- `attempts <= maxAttempts` is no invariant of outbound deliveries (`Outbound.AttemptsExceedLimit`): in
  an interleaving that starts within the limits every delivery stays within its own, a queued one with
  room for an attempt, exactly when each enqueue of a known key brings a limit above the attempts made,
  or not below them while the delivery is in flight or delivered (`Outbound.StaysWithinExactly`).
- An expired decision changes the store without telling persistence (`Approvals.UnrecordedExactly`).
- An accepted decision came before the expiry exactly when its clock text could be read: an unreadable
  one is accepted at any time (`Approvals.DecisionAcceptedExactly`, `Approvals.EveryDecisionWasProper`,
  `Approvals.UnreadableTimeIsAccepted`).
- Edits keep the ids of a bundle apart, and its capabilities and resources, exactly when created grants
  bring new ids (`Grants.SoundThroughoutExactly`). Capabilities and resources alone stay apart exactly
  when no update copies them from another grant with the updated one's id
  (`Grants.ApartThroughoutExactly`); two creations under one id and such an update leave two grants for
  one resource (`Grants.DuplicateReached`).
- A run's cost is within the per-run budget exactly when that budget is at least one cent
  (`Approvals.CompletionIsEarned`).
- Sorting keys by collation makes canonical text unambiguous exactly when no two keys tie
  (`CanonicalJson.CanonicalExactlyWithoutTies`). The text of `packages/core/src/runs.ts` leaves out key
  order, undefined properties, and which of `[undefined]` and `[]` an array is, and nothing else: two
  values share it exactly when they are equal up to these (`CanonicalJson.RunsTextIsFaithful`). So the
  text of a value names no other value exactly when none of its arrays is empty or holds an undefined
  element alone (`CanonicalJson.TextNamesValueExactly`).
- The queue's claim query ignores cancellation requests, so a record with one can be claimed exactly
  when it is queued (`WorkerQueue.CancelRequestedClaimableExactly`). None ever is: requests end unclaimed
  records at once and no step queues a record that has one (`WorkerQueue.RequestedIsNeverClaimed`).
- A merge and a row-by-row write agree exactly when every record's winner belongs to the organisation
  of its first version and no incoming dead letter meets one of another organisation for the same work
  id (`ReplicaMerge.UpsertAgreesExactly`). With the storage ids that the code writes they always agree
  (`ReplicaMerge.SnapshotUpsertIsMerge`).
- Issuing a lease and credential health agree except for a usable credential whose rotation date
  cannot be read (`CredentialBroker.IssueAgreesExactly`).
- An interval of one window length can admit more than maxRequests requests of a key: the largest number
  is 2 * maxRequests - 1, and maxRequests exactly when the window is one millisecond long or the limit is
  one (`RateLimiter.WindowBound`, `RateLimiter.WindowBoundReached`).

## Model

| member | source | states |
|---|---|---|
| WorkerQueue.WorkerQueueTable.ExpirePersistedWorkerLeases | packages/db/src/worker-queue-repository.ts:247-299 | the two sequential updates partition the organisation's lapsed claims into cancelled and requeued rows and leave every other row alone |
| WorkerQueue.WorkerQueueTable.SelectNext | packages/db/src/worker-queue-repository.ts:114-130 | returns a claimable, unlocked row that no other claimable, unlocked row precedes, or nothing when there is none |
| WorkerQueue.WorkerQueueTable.ClaimNextAvailable | packages/db/src/worker-queue-repository.ts:102-163 | expires lapsed claims, then claims the selected row under the fresh lease; the whole new table is stated |
| WorkerQueue.WorkerQueueTable.HeartbeatLease | packages/db/src/worker-queue-repository.ts:165-226 | extends a live lease, reports a cancellation, or expires a lapsed one; the whole new table is stated |
| WorkerQueue.WorkerQueueTable.ExpireLeasesNow | packages/db/src/worker-queue-repository.ts:228-244 | the same sweep as a step of its own, reporting exactly the lapsed claims |
| WorkerQueue.StepKeepsInv | packages/db/src/worker-queue-repository.ts:102-299 | a row is claimed exactly when all its lease columns are set, and lease ids stay unique, after any step |
| WorkerQueue.RunKeepsInv | packages/db/src/worker-queue-repository.ts:102-299 | the same over every run with a nondecreasing clock and fresh lease ids |
| WorkerQueue.HeldOrFenced | packages/db/src/worker-queue-repository.ts:165-226 | after one step a held lease is still held under the expiry last granted, or that expiry has come and the lease is fenced |
| WorkerQueue.LeaseIsExclusive | packages/db/src/worker-queue-repository.ts:102-226 | if a held record is claimed again, that happens no earlier than the expiry last granted, and the old lease is fenced |
| WorkerQueue.FencedForever | packages/db/src/worker-queue-repository.ts:165-226 | no heartbeat on a fenced lease ever continues, over every run |
| WorkerQueue.ExpireClearsLapsed | packages/db/src/worker-queue-repository.ts:247-299 | expiry leaves no lapsed claim of the organisation, touches no other organisation and is idempotent |
| WorkerQueue.CancelRequestedNeverClaimed | packages/db/src/worker-queue-repository.ts:102-299 | a record with a cancellation request that is not queued is never claimed again |
| WorkerQueue.CancelRequestedClaimableExactly | packages/db/src/worker-queue-repository.ts:114-130 | a record with a cancellation request can be claimed later exactly when it is queued |
| WorkerQueue.RequestedIsNeverClaimed | packages/worker/src/index.ts:691-743 | in every interleaving of cancellation requests, claims, heartbeats and expiries from a table where no queued record has a request, no record with a request is ever claimed |
| WorkerQueue.HeartbeatMovesExpiry | packages/db/src/worker-queue-repository.ts:202-218 | the default extension moves the expiry forward by now minus claimedAt; an explicit one moves it back exactly when it is shorter than what is left |
| ReplicaMerge.StorageIdRoundTrip | packages/db/src/worker-queue-repository.ts:705-713 | an id survives storage exactly when it does not already carry its organisation's prefix |
| ReplicaMerge.StorageIdNamesOrg | packages/db/src/worker-queue-repository.ts:705-713 | organisations without a colon never share a storage id |
| ReplicaMerge.MergeWorkerSnapshotRows | packages/db/src/worker-queue-repository.ts:337-396 | the loops over Maps and Sets compute the merge |
| ReplicaMerge.WinnerIsLatest | packages/db/src/worker-queue-repository.ts:328-335 | the winner of some versions is the latest, the last among equally late ones |
| ReplicaMerge.LastWriterWins | packages/db/src/worker-queue-repository.ts:328-396 | folding any list of snapshots leaves for every record id its winner |
| ReplicaMerge.MergeKeepsStored | packages/db/src/worker-queue-repository.ts:337-396 | no stored event or dead letter is dropped, only incoming ones are added, and all ids, sequences and work ids stay unique |
| ReplicaMerge.MergeIsIdempotent | packages/db/src/worker-queue-repository.ts:337-396 | merging the same snapshot again changes nothing, not even the order |
| ReplicaMerge.UpsertWorkerQueueRows | packages/db/src/worker-queue-repository.ts:398-453 | the row-by-row writes compute the upsert |
| ReplicaMerge.UpsertAgreesExactly | packages/db/src/worker-queue-repository.ts:337-453 | for any stored and incoming rows, row-by-row writes leave what the merge would exactly when every record's winner belongs to the organisation of its first version and no incoming letter meets a standing one of another organisation with its work id |
| ReplicaMerge.SnapshotUpsertIsMerge | packages/db/src/worker-queue-repository.ts:301-422 | they always agree on the snapshot of an organisation without a colon in its id, whatever other such organisations have stored |
| ReplicaMerge.ForeignLettersDiffer | packages/db/src/worker-queue-repository.ts:357-371 | rows without any record for which they differ |
| ReplicaMerge.OverwrittenBackAgrees | packages/db/src/worker-queue-repository.ts:398-409 | rows where a record of another organisation is overwritten and they agree |
| PersistenceChain.BekStorePersistence.RecordChange | packages/core/src/store.ts:1288-1305 | a recorded snapshot joins the end of the chain |
| PersistenceChain.BekStorePersistence.RunLink | packages/core/src/store.ts:1294-1300 | a link saves its own snapshot, or is skipped while an error stands |
| PersistenceChain.BekStorePersistence.SettleLink | packages/core/src/store.ts:1294-1304 | a save ends well, or its error is kept |
| PersistenceChain.BekStorePersistence.FinishFlush | packages/core/src/store.ts:183-190 | a resumed flush throws the standing error and clears it, or returns |
| PersistenceChain.StepKeepsInv | packages/core/src/store.ts:1288-1305 | links settle in order, nothing is saved between a failure and its report, and errors are accounted for, after any step |
| PersistenceChain.PersistenceIsOrderly | packages/core/src/store.ts:183-190 | in every interleaving saves keep recording order, none comes between a failure and its report, and failures are thrown in order, each at most once, none overwritten |
| PersistenceChain.ReturningFlushExactly | packages/core/src/store.ts:183-190 | a returning flush has saved everything recorded before it exactly when none of those saves failed |
| PersistenceChain.SkippedSnapshotNeverSaved | packages/core/src/store.ts:1294-1304 | after a failed flush another one can return although an earlier snapshot was never saved |
| Approvals.BekStore.CreateRun | packages/core/src/store.ts:673-833 | the new run, its approval and the notification of persistence, on every branch including the throwing ones |
| Approvals.BekStore.DecideApproval | packages/core/src/store.ts:835-913 | the decided approval and its run, or the error, including the branch that marks the approval expired and then throws |
| Approvals.StepKeepsInv | packages/core/src/store.ts:673-913 | every run is where its creation or its approval puts it, and every approval is pending, lapsed or properly decided, after any step |
| Approvals.RunKeepsInv | packages/core/src/store.ts:673-913 | the same over every sequence of the two operations, whatever settings they meet |
| Approvals.AwaitingExactly | packages/core/src/store.ts:784-806 | a run awaits approval exactly when it has an approval that is pending or expired, and never has two approvals |
| Approvals.EveryDecisionWasProper | packages/core/src/store.ts:841-882 | every approved or denied approval was decided with the matching hash by a human of its organisation who is not the requester for guarded risks, and before its expiry exactly when the clock text of the decision could be read |
| Approvals.DecisionAcceptedExactly | packages/core/src/store.ts:835-882 | a decision is accepted exactly when it is on a pending approval with the matching hash, by an entitled actor, before the expiry or at an unreadable clock text |
| Approvals.UnreadableTimeIsAccepted | packages/core/src/store.ts:853-858 | from the empty store, an approval decided at an unreadable clock text, which no readable time from the expiry on would be accepted for |
| Approvals.CompletionIsEarned | packages/core/src/store.ts:731-823 | a run completes only when policy allowed it inline without approval or a proper inline approval was given; its cost is positive and within the budget at creation exactly when that is at least one cent |
| Approvals.DecidedNeverChanges | packages/core/src/store.ts:841-846 | decided and expired approvals are never changed by anything that follows |
| Approvals.FinishedRunsStay | packages/core/src/store.ts:884-896 | a completed, failed or cancelled run of a reached store is unchanged after any further actions with new ids |
| Approvals.UnrecordedExactly | packages/core/src/store.ts:853-858 | the store changes without telling persistence exactly when a decision finds its approval expired or the payload function throws |
| Ingress.IngressStore.RecordIngressDelivery | packages/core/src/store.ts:915-961 | a known key is updated in place, a new one is put first |
| Ingress.IngressStore.RemoveIngressDelivery | packages/core/src/store.ts:963-979 | exactly the entries of the key are removed |
| Ingress.HandleSlack | apps/api/src/app.ts:4170-4182 | check and record in one step: a present key is a duplicate and nothing changes |
| Ingress.HandleGitHub | apps/api/src/app.ts:2677-2804 | the same for delivery key and body key, with the conflict for a reused delivery id |
| Ingress.RollBack | apps/api/src/app.ts:1388-1406 | after a failed flush all keys of the request are gone |
| Ingress.StepKeepsInv | apps/api/src/app.ts:2677-2804 | keys of waiting requests are present and disjoint, and every key's counters balance, after any step |
| Ingress.ProcessedOncePerFlush | apps/api/src/app.ts:1388-1406 | in every interleaving a key was accepted once more than its flushes failed while present and as often while absent, and its effect ran each of those times but the ones it was only acknowledged |
| Ingress.AcceptedExactly | apps/api/src/app.ts:2677-2699 | a delivery is accepted exactly when none of its keys is present and otherwise changes nothing; body keys work across delivery ids |
| Outbound.PostMessageWithRetry | apps/api/src/slack-outbound.ts:346-381 | the counting loop makes exactly the calls of the specification |
| Outbound.PostCalls | apps/api/src/slack-outbound.ts:346-381 | at least one and at most maxPostAttempts calls, all but the last refused retryably, the last so only when the calls ran out |
| Outbound.NormalizePostAttempts | apps/api/src/slack-outbound.ts:627-635 | between 1 and 5 |
| Outbound.NormalizeMaxAttempts | packages/core/src/store.ts:1522-1527 | between 1 and 20 |
| Outbound.BekStore.EnqueueOutboundDelivery | packages/core/src/store.ts:981-1033 | a known key is updated, a failed one queued again with its attempts kept, a new key added |
| Outbound.BekStore.BeginOutboundDelivery | packages/core/src/store.ts:1056-1071 | only a queued delivery begins, with one more attempt |
| Outbound.BekStore.FailOutboundDelivery | packages/core/src/store.ts:1088-1105 | queued again with a delay while retryable and attempts are left, else failed |
| Outbound.DrainSlackOutboundDeliveries | apps/api/src/app.ts:1466-1507 | the loop over the due deliveries computes an uninterrupted drain, ending early where it throws |
| Outbound.DrainIsRun | apps/api/src/app.ts:1466-1507 | an uninterrupted drain is a run of the machine of interleaved drains |
| Outbound.StepKeepsInv | apps/api/src/app.ts:1466-1507 | a posted delivery is delivering and posted by one drain only, after any step of any drain |
| Outbound.AtMostOneInFlight | apps/api/src/app.ts:1466-1507 | the same over every interleaving of drains and enqueues |
| Outbound.DeliveredIsFinal | packages/core/src/store.ts:1073-1086 | a delivered delivery stays delivered and is never begun or posted again |
| Outbound.BeginningsBounded | packages/core/src/store.ts:981-1105 | between two enqueues of its key a delivery is begun at most max(1, maxAttempts - attempts) times, each causing at most maxPostAttempts calls, also when posting throws after them |
| Outbound.RequeuedExactly | packages/core/src/store.ts:988-1004 | whatever its status, an enqueued known delivery is within its limit exactly when the new limit leaves room for the attempts already made |
| Outbound.StaysWithinExactly | packages/core/src/store.ts:981-1105 | in any interleaving that starts within the limits, all deliveries stay within theirs throughout exactly when every enqueue of a known key leaves such room |
| Outbound.AttemptsExceedLimit | packages/core/src/store.ts:994-1004 | a run in which a delivery limited to one attempt makes two |
| Grants.BundleGrants.CreateGrant | packages/core/src/store.ts:454-467 | the normalised grant is put first, or nothing changes |
| Grants.BundleGrants.UpdateGrant | packages/core/src/store.ts:469-485 | the grant is replaced by its normalised edit, which is returned, or nothing changes and the error is reported |
| Grants.BundleGrants.DeleteGrant | packages/core/src/store.ts:487-495 | all grants with the id are removed and the first of them is returned, or nothing changes |
| Grants.EditsKeepSound | packages/core/src/store.ts:454-497 | over every sequence of edits with new ids, a bundle has no two grants for one capability and resource, and exactly the asking ones require approval |
| Grants.SoundVerdict | packages/core/src/store.ts:1438-1487 | for such a bundle the verdict needs approval exactly when it asks and does not depend on the order of grants |
| Grants.EditKeepsSoundExactly | packages/core/src/store.ts:454-497 | an accepted edit keeps a sound bundle sound exactly when it does not create a grant under a used id |
| Grants.SoundThroughoutExactly | packages/core/src/store.ts:454-497 | over any edits a sound bundle stays sound throughout exactly when every accepted creation brings a new id |
| Grants.EditDuplicatesExactly | packages/core/src/store.ts:454-497 | whether ids are unique or not, an accepted edit of a bundle without two grants for one capability and resource makes such a pair exactly when it updates a grant to the capability and resource of another with its id |
| Grants.ApartThroughoutExactly | packages/core/src/store.ts:454-497 | over any edits a bundle stays free of such pairs throughout exactly when no accepted edit does that |
| Grants.ReusedIdAdmitsDuplicate | packages/core/src/store.ts:1467-1479 | of two grants with one id the first can be turned into a copy of the second |
| Grants.DuplicateReached | packages/core/src/store.ts:454-485 | three accepted edits of the empty bundle that leave two grants for one capability and resource |
| Policy.ScoresFollowTheRule | packages/core/src/policy.ts:81-114 | up to 998 characters a score is higher exactly when a matching pattern is more specific |
| Policy.VerdictIsGoverningGrant | packages/core/src/policy.ts:31-80 | the verdict is that of the governing grant: denials first, then exact, then longest prefix |
| Policy.RuleHoldsExactlyTo998 | packages/core/src/policy.ts:97-114 | the rule holds for all grants exactly when the resource has at most 998 characters |
| Policy.OrderImmaterial | packages/core/src/policy.ts:31-80 | the order of distinct grants does not matter when no wildcard can tie with an exact pattern |
| Policy.OrderImmaterialExactly | packages/core/src/policy.ts:97-114 | and that is exactly when it does not matter |
| AccessRows.AccessBundlesFromRows | packages/db/src/snapshot-repository.ts:1015-1047 | the grouping loops compute the regrouped bundles |
| AccessRows.RowsRoundTrip | packages/db/src/snapshot-repository.ts:549-579 | flattening and regrouping gives the same bundles |
| AccessRows.ShuffleKeepsGrants | packages/db/src/snapshot-repository.ts:1015-1047 | rows in any order give every place the same grants |
| AccessRows.PolicySurvivesPersistence | packages/db/src/snapshot-repository.ts:549-579 | flattening, shuffling and regrouping leaves the decision and the matching grant the same |
| CanonicalJson.EqualTextMeansEquivalent | packages/github/src/branches.ts:273-289 | equal text means equal values up to what the file leaves out, for any key order and either way of writing undefined elements |
| CanonicalJson.EquivalentMeansEqualText | packages/github/src/branches.ts:273-289 | and conversely when no two keys tie |
| CanonicalJson.CanonicalTextIsFaithful | packages/github/src/branches.ts:273-289 | both directions for any key order without ties |
| CanonicalJson.CanonicalExactlyWithoutTies | packages/core/src/runs.ts:116-130 | over all values a key order makes the text name a value up to key order, undefined properties and `[undefined]` against `[]` exactly when no two keys tie under it |
| CanonicalJson.RunsTextIsFaithful | packages/core/src/runs.ts:116-130 | for any key order without ties and any two values: the same text exactly when they are equal up to key order, undefined properties and `[undefined]` against `[]` |
| CanonicalJson.TextWithoutLoneHoles | packages/core/src/runs.ts:116-130 | two values without an array whose single element is undefined share their text exactly when they are the same up to key order and undefined properties |
| CanonicalJson.TextNamesValueExactly | packages/core/src/runs.ts:116-130 | the text of a value is the text of no other exactly when none of its arrays is empty or holds an undefined element alone |
| CanonicalJson.RunsTextIsText | packages/core/src/runs.ts:116-130 | on values without undefined array elements the text of `runs.ts` is that of `branches.ts` |
| CanonicalJson.LoneHoleIsLost | packages/core/src/runs.ts:120-122 | `[undefined]` shares its text with `[]`, while `[undefined, null]` and `[null]` differ, and so do `[undefined]` and `[null]`, which `branches.ts` writes alike |
| CanonicalJson.TiedObjects | packages/core/src/runs.ts:116-130 | one object in two key orders with two texts, for any two keys that tie |
| CanonicalJson.BranchesTextIsFaithful | packages/github/src/branches.ts:273-289 | the code-unit order of the plan hash is such an order |
| PlanHash.PlanTextBindsEverything | packages/github/src/branches.ts:211-257 | two normalised bindings have the same pre-hash text exactly when all their fields are equal, absent ones included: repository, texts, branches, flags, lists, installation, repository id, pull-request number, head commit, diff summary, files, model route, runtime and requester |
| PlanHash.EqualPlanHashesExactly | packages/github/src/workflows.ts:283-421 | two draft plans have the same hash exactly when everything bound is equal (repository, title, body, branches, flags, sorted labels and reviewers, ids, sorted paths, requester) or their texts collide under the digest |
| GitHubPlans.RepoNameFixpointExactly | packages/github/src/resources.ts:111-125 | normalising a repository name again leaves it alone exactly when it does not end in .git |
| GitHubPlans.RepoNameKeepsGit | packages/github/src/resources.ts:111-125 | such a name exists |
| GitHubPlans.OwnerFixpoint | packages/github/src/resources.ts:103-109 | owner normalisation is idempotent |
| GitHubPlans.StringListFixpoint | packages/github/src/proposals.ts:130-136 | label and reviewer normalisation is idempotent |
| GitHubPlans.FilePathFixpoint | packages/github/src/workflows.ts:607-618 | path normalisation is idempotent |
| GitHubPlans.NormalizeCommitChanges | packages/github/src/workflows.ts:538-557 | the loop over a Set finds the first repeated path |
| GitHubPlans.ChangesFixpoint | packages/github/src/workflows.ts:538-605 | change normalisation is idempotent |
| GitHubPlans.ChangesHaveDistinctPaths | packages/github/src/workflows.ts:538-557 | accepted changes have distinct paths |
| GitHubPlans.PlanHasShape | packages/github/src/workflows.ts:283-421 | every plan is determined by parts that all normalisers leave alone, with the inner repository parsed once more |
| GitHubPlans.FixedPartsMakePlan | packages/github/src/workflows.ts:283-421 | conversely, parts that all normalisers leave alone make a plan of their shape |
| GitHubPlans.ApprovedIsExecutedExactly | packages/github/src/workflows.ts:478-536 | rebuilding from the approval payload gives the same plan, head branch, hash input and plan hash included, up to creating its branch, exactly when the repository name does not end in .git |
| GitHubPlans.NewPlanIsRebuilt | packages/github/src/workflows.ts:516-536 | a plan that created its branch anew is rebuilt entirely equal |
| GitHubPlans.GitPlanChanges | packages/github/src/workflows.ts:516-536 | the request for o/x.git.git is accepted, and its plan is not rebuilt from its payload |
| GitHubPlans.SameHashOtherCommit | packages/github/src/workflows.ts:283-421 | that request and one that deletes the same file have one plan hash, and commits that differ in changes, message and run |
| GitHubPlans.ResolutionNames | packages/github/src/branches.ts:110-182 | a resolution carries the normalised branch and hash, and no pull request when it creates the branch |
| BranchNames.BranchNameFixpoint | packages/github/src/proposals.ts:96-120 | a normalised branch name is left alone |
| BranchNames.SanitizeCleans | packages/github/src/branches.ts:343-354 | a sanitised segment has only safe characters, no double dot and no dot or hyphen at its ends |
| BranchNames.SanitizeFixpoint | packages/github/src/branches.ts:343-354 | sanitising leaves a clean segment without double hyphens alone |
| BranchNames.PartsMakeRef | packages/github/src/proposals.ts:96-120 | a name of good components is valid exactly when none ends in .lock |
| BranchNames.GeneratedNameExactly | packages/github/src/branches.ts:29-68 | generation succeeds exactly when no prefix component ends in .lock; the name is then a fixpoint, within its limit, and ends in the whole digest |
| BranchNames.LockPrefixRefused | packages/github/src/branches.ts:356-360 | a prefix component ending in .lock that the sanitiser lets through |
| BranchNames.LockedNameRefused | packages/github/src/branches.ts:29-68 | generation under that prefix fails |
| BranchNames.SameNameSameDigest | packages/github/src/branches.ts:29-68 | runs that share a generated name share the digest of their plan hash |
| ModelRouting.CostMonotoneAndRoundedUp | packages/model-router/src/index.ts:363-396 | cost is monotone in tokens, never below the exact price and less than a cent above it or one cent |
| ModelRouting.RankingHolds | packages/model-router/src/index.ts:1056-1085 | a ranking holds every routable model of the list once, by score and then cost |
| ModelRouting.SelectionIsRight | packages/model-router/src/index.ts:998-1032 | the default when automatic and affordable, else the best affordable model, else the best |
| ModelRouting.RouteSequenceHolds | packages/model-router/src/index.ts:949-968 | each routable policy model once, the selected one first and the rest sorted; a sequence exists exactly when some policy model is routable |
| Failover.InMemoryModelCostLedger.Record | packages/model-router/src/index.ts:472-476 | an entry with the next sequence number is appended |
| Failover.InMemoryModelCostLedger.Summarize | packages/model-router/src/index.ts:517-542 | the loop adds up the entries of the run |
| Failover.TryRoutes | packages/model-router/src/index.ts:845-947 | the loop's attempts, gateway calls, ledger entries and response |
| Failover.RunModelWithFailover | packages/model-router/src/index.ts:845-947 | the whole result, or the error that leaves gateway and ledger untouched |
| Failover.FirstSuccessWins | packages/model-router/src/index.ts:845-947 | the gateway is called on the callable routes in order up to the first that does not fail retryably, which decides the run |
| Failover.OkExactly | packages/model-router/src/index.ts:845-947 | ok exactly when some callable route succeeds and all callable ones before it fail retryably |
| Failover.EveryCallIsCovered | packages/model-router/src/index.ts:1163-1200 | no call over the effective ceiling without an approval covering the route, none with unknown pricing when pricing is required |
| Failover.EachModelAtMostOnce | packages/model-router/src/index.ts:949-968 | a run considers only routable policy models, each at most once, the selected one first |
| Failover.LedgerConserved | packages/model-router/src/index.ts:517-542 | a run's summary is the prior one plus the estimates of considered routes plus the response |
| Failover.SpendBound | packages/model-router/src/index.ts:1163-1200 | a response within its token estimate and priced by the benchmark costs at most the effective ceiling, or at most the approved estimate |
| ModelUsage.ModelUsageRepository.RecordUsage | packages/db/src/model-usage-repository.ts:73-89 | the row of the input is written under its id, or the input is refused |
| ModelUsage.HoldsLastWrites | packages/db/src/model-usage-repository.ts:73-89 | after any writes there is one row per id written, holding its last write |
| ModelUsage.SummarizeModelUsageRows | packages/db/src/model-usage-repository.ts:167-211 | one summary per matching group, with exactly the group's totals, sorted |
| ModelUsage.TotalsPermute | packages/db/src/model-usage-repository.ts:167-211 | totals do not depend on row order |
| ModelUsage.ModelUsageQueue.EnqueueModelUsageWrite | apps/api/src/worker-runtime.ts:348-353 | a write joins the end of the queue |
| ModelUsage.ModelUsageQueue.FlushPendingModelUsageWrites | apps/api/src/worker-runtime.ts:355-365 | uninterrupted, writes leave the queue in order up to the first failure, and the table holds exactly those, and the failed one when it failed after the write |
| ModelUsage.FlushCallIsRun | apps/api/src/worker-runtime.ts:222-365 | such a flush is a run of the machine of interleaved writes, calls and sink answers, with the same queue, table and verdict |
| ModelUsage.StepKeepsInv | apps/api/src/worker-runtime.ts:348-365 | the table holds the writes taken off the queue, or one more after a failure behind the write |
| ModelUsage.ReturningFlushExactly | apps/api/src/worker-runtime.ts:222-232 | a returning flush has written every earlier write exactly when it did not join a flush that had ended |
| ModelUsage.LateCallExists | apps/api/src/worker-runtime.ts:222-232 | such a late call exists |
| SnapshotSave.SnapshotRepository.SaveSnapshot | packages/db/src/snapshot-repository.ts:488-502 | the statements compute the saved database; a failing insert rolls back |
| SnapshotSave.TotalsConserved | packages/db/src/snapshot-repository.ts:488-502 | the totals of every surviving group are as before, those of all others are gone |
| SnapshotSave.SavedUsage | packages/db/src/snapshot-repository.ts:868-918 | no preserved row is skipped on the way back |
| SnapshotSave.SaveKeepsConsistency | packages/db/src/schema.ts:882-916 | keys and references hold after a save |
| CredentialBroker.InMemoryCredentialLeaseBroker.constructor | packages/credentials/src/leases.ts:41-58 | valid options and no leases |
| CredentialBroker.InMemoryCredentialLeaseBroker.IssueLease | packages/credentials/src/leases.ts:60-143 | the granted lease is stored under its id, in place of what the id named, or the first failing check is reported |
| CredentialBroker.InMemoryCredentialLeaseBroker.RenewLease | packages/credentials/src/leases.ts:145-169 | the renewed lease is returned, or the first failing check is reported; the clock is read twice |
| CredentialBroker.InMemoryCredentialLeaseBroker.RevokeLease | packages/credentials/src/leases.ts:171-186 | an active lease is revoked, a lapsed one expired |
| CredentialBroker.InMemoryCredentialLeaseBroker.ResolveLeaseTarget | packages/credentials/src/leases.ts:219-237 | the target of an active lease with its organisation, provider and secret, or nothing |
| CredentialBroker.InMemoryCredentialLeaseBroker.GetLease | packages/credentials/src/leases.ts:188-194 | the lease if it is active and not lapsed |
| CredentialBroker.InMemoryCredentialLeaseBroker.ListActiveLeases | packages/credentials/src/leases.ts:196-205 | lapsed leases expire, and exactly those still active are listed in order |
| CredentialBroker.InMemoryCredentialLeaseBroker.SweepExpired | packages/credentials/src/leases.ts:207-217 | exactly the leases that lapse are expired and reported |
| CredentialBroker.RunKeepsInv | packages/credentials/src/leases.ts:60-289 | in every run, under new ids or not, each lease has 0 < ttl <= maxTtl, never outlives its credential, its audit reference mirrors it, and no two leases have one id |
| CredentialBroker.EndedIsFinal | packages/credentials/src/leases.ts:251-259 | expired and revoked leases never change again, whatever is asked but a new lease under their id |
| CredentialBroker.ResolvesExactly | packages/credentials/src/leases.ts:219-237 | a target resolves exactly while its lease is active and its expiry lies ahead |
| CredentialBroker.LapsedForGood | packages/credentials/src/leases.ts:219-259 | a lapsed lease is never renewed or resolved again while the clock does not run backwards and no new lease takes its id |
| CredentialBroker.ReportedAtMostOnce | packages/credentials/src/leases.ts:207-217 | the sweeps of a run under new ids report each lease at most once |
| CredentialBroker.IssueAgreesExactly | packages/credentials/src/health.ts:55-122 | with a valid ttl and purpose a lease is issued exactly for a usable credential, which is what health calls leaseable except for an unreadable rotation date |
| CredentialBroker.RequiredScopesExactly | packages/credentials/src/health.ts:151-178 | required scopes keep a credential leaseable exactly when its summary advertises them all |
| RateLimiter.Limiter.PruneExpiredRateLimitBuckets | apps/api/src/app.ts:6829-6838 | the loop leaves exactly the live buckets |
| RateLimiter.Limiter.ConsumeRateLimit | apps/api/src/app.ts:6754-6797 | the whole decision and the new buckets |
| RateLimiter.PruningIsInvisible | apps/api/src/app.ts:6771-6773 | pruning changes no field of any decision |
| RateLimiter.WindowBound | apps/api/src/app.ts:6754-6797 | any interval of one window length lets through at most 2 * maxRequests - 1 requests of a key, or maxRequests if the window is one millisecond |
| RateLimiter.WindowBoundReached | apps/api/src/app.ts:6754-6797 | for every limit and every positive window a run that reaches that bound |
| Csv.ParseFormat | apps/api/src/app.ts:5583-5585 | any table of rows with two cells or more reads back exactly |
| Csv.ExportReadsBack | apps/api/src/app.ts:5541-5581 | the export gives back its header and exactly the original cell strings |
| Csv.ExportInjective | apps/api/src/app.ts:5541-5585 | exports with the same text exported the same cells |

## Left out

- `packages/worker`, its in-memory queue and its runtime service: of their code only the cancellation of a run is part of this model.
- `/api/runs`: it waits between its duplicate check and its record, so the ingress theorem is stated for the keyed Slack and GitHub handlers only.
- Effects that throw part of the way: an ingress effect counts when the handler goes on to record its key.
- Run and audit events, redaction of secrets, and the wording of policy and skip reasons: written beside the modelled state, read by none of it.
- `setRunStatus`, `upsertApprovalRequest` and the other store methods that change runs or approvals for the worker: the approval theorems are about `createRun` and `decideApproval`.
- String lengths count characters, not UTF-16 code units, except in `CanonicalJson` and `PlanHash`, which work on code units.
- Conversion of fractional numbers to text: a JSON number is its numeral, and only integers are bound by a plan hash.
- IEEE rounding of scores and costs: real numbers instead.
- Values other than JSON and `undefined` in canonical text (non-finite numbers, dates, functions), and hashing an outermost `undefined`, which throws in `runs.ts`.
- Installation ids given as numbers: the model starts from their text.
- `commit.expectedHeadSha`, plan steps and fixed texts of a plan: constant or absent in the plans modelled here.
- Group keys of usage summaries are tuples: the source joins the same fields with a NUL, which no stored text contains.
- Tables that saving a snapshot deletes and inserts without any reference from usage rows, and restrictions on deleting referenced rows.
- Further unique indexes of the work tables: a write that violates one aborts its transaction and changes nothing.
- The credential object held by a lease is a value: a caller that changes the object after issuing shows through in later audit references only.
- Dates outside the range of `Date`, which make the broker throw.
- The role of the provider registry in loading configuration: it is the list of registered providers.
- Identity, memory, access control, budgets, preflight, sessions, the web app, Slack rendering and network clients: settled by reading one branch, or plumbing.
