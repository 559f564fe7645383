# Verified model of the Entra role sync

The operator's `ZitiEntraRoleSync` controller keeps the role attributes of OpenZiti identities in line with
the app roles that Entra groups carry. A run snapshots the directory, the identities and the ownership
claims, plans, stops on an ownership conflict or on the remove-all guard, records its claims in status before
any write, re-reads identity and claims before each PATCH, and decides from the outcomes which values it may
forget. This project models that protocol and proves what it keeps, over every interleaving of runs, crashes,
ambiguous failures and outside edits. Two smaller parts model Graph paging and router policy resolution.

`dafny verify dfyconfig.toml` checks everything.

## Main results

In the statements below, C is the set of current role values, P the recorded values a run planned from, and
a retired value is one in P but not in C. Another sync challenges a value when it has recorded it
and this sync has not, or has the younger claim. An instance stands while it is stored under the same UID and is
not being deleted.

- **No forgotten grants** (`ProtocolGrants.NoForgottenGrants`): in every behaviour, a value a sync granted to
  an identity by a PATCH that took effect, and that the identity has held ever since, is in that sync
  instance's recorded values.
- **Disjoint claims** (`ProtocolClaims.ClaimsStayDisjoint`): with one reconcile at a time, recorded claims stay
  pairwise disjoint. Without that they need not: `Overlap.OverlapWithoutSerialization` builds the behaviour
  for any two syncs and any value. Even then two PATCHes authorized against the same recorded claims never have a
  managed value in common (`ProtocolGrants.AuthorizedTogether`).
- **Synced is sound** (`Undisturbed.SyncedIsSound`, `Reconciler.ReadyRunIsSound`), **syncs do not fight**
  (`TwoSyncs.SyncedStaysQuiet` over whole reconciles, `ProtocolClaims.PatchSparesOtherClaims` for every PATCH of
  every serialized behaviour) and **plans converge** (`PlanProperties.Converges`). A run without
  faults and interference that meets the conditions leaves every identity with exactly its grants and is Synced,
  or CleanupPending exactly when an ineligible listed identity holds a retired value (`FaultFree.FaultFreeRun`).
- **Exact conditions**: when a run gets past planning (`Decisions.PlanStepExactly`), when a PATCH is sent
  (`Decisions.DecideExactly`), when cleanup is pending (`Writes.PendingExactly`), when the guard trips
  (`PlanProperties.GuardIff`), when a PATCH carries the documented race (`ProtocolShape.RaceExactly`).
- **No PATCH without the check** (`ProtocolHistory.PatchWasUnchallenged`): in every behaviour, each PATCH was
  authorized at a moment when no other sync challenged any value it manages.
- **Instance-bound compare-and-swap** of status (`ProtocolShape.RecordIsCas`, `ProtocolShape.PersistIsBound`) and
  the **frame** of every PATCH (`ProtocolShape.PatchFrame`).
- **One run, one instance** (`ProtocolHistory.StatusWriteInstance`): all status writes of a run go to the live
  instance whose claims and listing it planned from.
- **Disjoint write sets** (`IdentityController.WriteSetsAreDisjoint`): no PATCH goes to an identity the ZitiIdentity
  controller may write.
- **Refinement** (`Refinement.ReconcileIsBehavior`): the imperative reconcile, for every pattern of faults, is a
  sequence of protocol steps with the same store and backend.

## Layout

| file | part |
|---|---|
| Text, SortedSets | strings as atoms, lexical order, folding, the sorted list of a set |
| Ownership, Store | claim arbitration, recorded claims |
| Directory, Planner, PlanBuilder, PlanProperties, Reports | role scope and grants, the plan, the loops that build it, what plans guarantee and report |
| Retirement, Writes | completion, the decision before each PATCH |
| Protocol, Decisions | the step-level state machine, and its two decisions in terms of what is stored and listed |
| ProtocolShape, ProtocolHistory, ProtocolGrants, ProtocolClaims, Overlap | what holds in its behaviours |
| Undisturbed, Reconciler, FaultFree, TwoSyncs, Refinement | whole runs, the reconciler class, runs without faults, several syncs, the link to the protocol |
| IdentityController, Paging, Routers | the ZitiIdentity controller's write set, Graph paging, router policies |

## Assumptions

- `ListIdentities` is one atomic listing with distinct IDs; resource keys are distinct.
- `readOwnership` reads the sync, the other syncs and the ZitiIdentity resources at one moment.
- The API server applies a status update only to the version it was read from, and every write gets a new
  version; instance UIDs are never reused.
- A call that fails had its effect when it failed or never; it does not take effect later.
- Role sync status is written by this controller only (`StatusIsOurs`), where a result says so. The results of
  ProtocolShape and ProtocolHistory do not need this.
- At most one run per sync resource is under way.
- A "grant" is a value in a PATCH's granted list. A PATCH can also put back an unmanaged value that was removed
  after the fresh read; `ProtocolShape.RaceExactly` says exactly when.
- Case folding is ASCII folding, one function for indexing and for the fresh check. The code indexes with
  `ToLower` and re-checks with `EqualFold`, which agree on ASCII.

## Model

| member | source | states |
|---|---|---|
| `SortedSets.SortedSet` | internal/rolesync/ownership.go:65-78 | the result is the one strictly sorted list of the values' set, for every map iteration order |
| `SortedSets.SortedUnique` | internal/rolesync/ownership.go:65-78 | two strictly sorted lists with the same elements are equal |
| `SortedSets.SameRoleSet` | internal/controller/zitientrarolesync_reads.go:169-174 | comparing sorted and compacted copies decides equality of the value sets |
| `Text.LessIff` | internal/rolesync/ownership.go:59-62 | the string order is lexical: the smaller character at the first difference, or a proper prefix |
| `Text.FoldIff` | internal/rolesync/matching.go:46 | folding identifies exactly the strings equal up to ASCII case, and leaves no upper case letter |
| `Ownership.ClaimBeforeIsStrictTotal` | internal/rolesync/ownership.go:55-63 | claim precedence is irreflexive, asymmetric, transitive, and total on distinct resources |
| `Ownership.FindOwner` | internal/rolesync/ownership.go:33-46 | the running winner over the claims gives the owner, the sync itself when nobody recorded the value |
| `Ownership.ResolveOwnership` | internal/rolesync/ownership.go:29-53 | an owner for every candidate and the conflicts, as `Ownership.OwnerIsOldest` and `Ownership.ConflictsIff` say what they are |
| `Ownership.ConflictsIff` | internal/rolesync/ownership.go:43-50 | a candidate is a conflict iff another sync recorded it and this one did not or has the younger claim (creation time, then namespace, then name); conflicts are sorted |
| `Ownership.EarlierClaimWins` | internal/rolesync/ownership.go:55-58 | of two recorded claims on a value the one created strictly earlier wins, and the value is a conflict for the other |
| `Ownership.OwnerIsOldest` | internal/rolesync/ownership.go:33-46 | the owner is the oldest recorded claimant, at equal age the first by namespace and name; an unrecorded value is one's own |
| `Ownership.WinnerOwns` | internal/rolesync/ownership.go:33-42 | the winner is a recorded claimant that precedes every other claimant |
| `Ownership.OwnersAgree` | internal/rolesync/ownership.go:29-53 | every sync computes the same owner of a recorded value, in any list order |
| `Ownership.ConflictFreeIff` | internal/rolesync/ownership.go:43-50 | a sync is conflict-free on a value iff every other claimant of it comes after the sync's own recorded claim |
| `Ownership.ExactlyOneOwner` | internal/rolesync/ownership.go:29-53 | of the syncs that recorded a value exactly one is conflict-free on it |
| `Directory.EnabledRoles` | internal/rolesync/scope.go:29-39 | User role values, and for each role ID the value of its last enabled User role |
| `Directory.EnabledValueIsSomeRole` | internal/rolesync/scope.go:36-38 | with distinct enabled role IDs, last-write-wins is the same as some enabled User role with that ID and value |
| `Directory.GroupGrants` | internal/rolesync/scope.go:43-50 | per group exactly the sorted set of values that group assignments other than Default Access give it |
| `Directory.ResolveRoleScope` | internal/rolesync/scope.go:28-52 | fails iff no role allows User; else the sorted values of all User roles, and per group exactly the values that its Group assignments other than Default Access confer, through the last enabled User role with the assigned ID |
| `Directory.GroupIds` | internal/rolesync/scope.go:18-25 | the sorted group IDs |
| `Directory.GrantsFromDirectory` | internal/rolesync/matching.go:33-51 | a key is granted a value iff some assignment confers it on a group with a member whose `id`, `userPrincipalName` or else `mail`, as the property says, is not empty and folds to the key |
| `Directory.GrantKeysIff` | internal/rolesync/matching.go:46-47 | a folded property is a granted key iff it is granted at least one value, and is then not empty |
| `Planner.MergeAttributes` | internal/rolesync/planner.go:133-141 | unmanaged values in place followed by the sorted grants |
| `Planner.MergeFrame` | internal/rolesync/planner.go:133-141 | a merge keeps unmanaged values in order and multiplicity and leaves exactly the grants among managed ones |
| `Planner.MergeAppends` | internal/rolesync/planner.go:133-141 | the values kept come first, as they were, and the grants follow, sorted |
| `Planner.MergeIdempotent` | internal/rolesync/planner.go:133-141 | merging again with the same grants, under the same or fewer managed values, reproduces the list |
| `Planner.IdentityOwned` | internal/rolesync/matching.go:10-20 | true iff some owner names the identity by non-empty ID or name |
| `Planner.IdentityIndex` | internal/rolesync/matching.go:53-62 | under every folded external ID, the listed identities that bear it, in order |
| `PlanBuilder.PlanUnderway.Report` | internal/rolesync/planner.go:117-121 | the kept report is the first entries, up to the cap, of everything reported |
| `PlanBuilder.PlanUnderway.ObserveRetirement` | internal/rolesync/planner.go:106-116 | a holder with exactly the identity's retired values is added iff it has any |
| `PlanBuilder.PlanUnderway.EligibleIdentity` | internal/rolesync/planner.go:89-104 | decides eligibility and reports an owned or duplicated identity with its reason |
| `PlanBuilder.GrantUsers` | internal/rolesync/matching.go:37-48 | one group's users add its values to exactly the keys they bear, and each user without the property is reported once |
| `PlanBuilder.MemberGrants` | internal/rolesync/matching.go:33-51 | the built map holds for every key exactly the values the directory grants it, which `Directory.GrantsFromDirectory` states on the users' fields |
| `PlanBuilder.CountUnclaimed` | internal/rolesync/planner.go:60-64 | the number of granted keys that no identity bears |
| `PlanBuilder.PlanIdentity` | internal/rolesync/planner.go:66-81 | one identity's patch, match, holder and report, owned and duplicated identities included |
| `PlanBuilder.BuildPlan` | internal/rolesync/planner.go:43-87 | fails iff there are no current values; else the plan, identity by identity, with its report cut at the cap |
| `PlanProperties.SettledIff` | internal/rolesync/planner.go:75-80 | an eligible identity gets no patch iff within C + P it holds exactly its grants |
| `PlanProperties.EligibleIff` | internal/rolesync/planner.go:89-104 | eligible iff the external ID is not empty, no other listed identity shares it up to case, and no owner names the identity by ID or name |
| `PlanProperties.PatchesAreExact` | internal/rolesync/planner.go:66-86 | a conflict-free plan patches exactly the eligible identities that do not hold their grants, with their labels, grants and merged attributes; with conflicts it patches nothing |
| `PlanProperties.HoldersAreExact` | internal/rolesync/planner.go:106-116 | an ID is a retirement holder iff a listed identity with that ID has a retired value |
| `PlanProperties.HolderValues` | internal/rolesync/planner.go:106-116 | a holder carries, sorted, exactly its identity's retired values |
| `PlanProperties.RetiredForcesPatch` | internal/rolesync/planner.go:66-81 | every eligible identity with a retired value is patched |
| `PlanProperties.PatchesHaveDistinctIds` | internal/rolesync/planner.go:66-81 | no identity is patched twice by one plan |
| `PlanProperties.GuardIff` | internal/rolesync/planner.go:65-82 | the guard trips iff an eligible identity holds a managed value and none is matched; a plan that passes with a holder, once all its patches are applied, leaves an eligible holder |
| `PlanProperties.OneEligiblePerKey` | internal/rolesync/planner.go:89-104 | each folded external ID has at most one eligible identity |
| `PlanProperties.CountingConserves` | internal/rolesync/planner.go:58-74 | granted keys = members without identity + matched identities + keys whose identities are all owned or duplicated |
| `PlanProperties.CountersMean` | internal/rolesync/planner.go:58-74 | matched counts the eligible identities with grants, the other counter the granted keys that are no identity's folded external ID |
| `Reports.ReportsAreExact` | internal/rolesync/planner.go:89-121 | each user without the property is reported once, each owned or duplicated identity with its reason, nothing else, and a run keeps the first 50 |
| `PlanProperties.Converges` | internal/rolesync/planner.go:43-87 | after applying a conflict-free plan, re-planning with recorded claims between C and C + P gives no conflict, patch or guard, and the same lists |
| `PlanProperties.StaysSettled` | internal/rolesync/planner.go:66-81 | a sync without patches stays so when attributes change outside its managed values only |
| `PlanProperties.ClearOfClaim` | internal/rolesync/planner.go:50-51 | passing the ownership check against a disjoint recorded claim means no managed value in common with it |
| `Retirement.RetirementPending` | internal/rolesync/retirement.go:91-122 | true iff some identity is not known to be clear of retired values after all outcomes |
| `Retirement.Complete` | internal/rolesync/retirement.go:53-89 | the completion, which `Retirement.CompletionMeans`, `Retirement.CompletionCollects` and `Retirement.UnrecordedCompletion` state on the outcomes alone |
| `Retirement.UnrecordedCompletion` | internal/rolesync/retirement.go:53-57 | before claims are recorded a completion keeps P, is not ready, and gives the block reason and the plan's conflicts |
| `Retirement.CompletionMeans` | internal/rolesync/retirement.go:58-88 | ZitiError iff an outcome failed, else Conflict iff one conflicted, else the block reason, else CleanupPending or Synced; updated is the number of Patched outcomes; C + P kept unless ready |
| `Retirement.CompletionCollects` | internal/rolesync/retirement.go:61-73 | the fault of the first failure that has one, and the plan's conflicts with those of all conflicted outcomes, sorted |
| `Retirement.UncleanExactly` | internal/rolesync/retirement.go:91-122 | an identity is still unclean iff the last decisive outcome on it is no deletion and shows a retired value, or there is none and it was a holder |
| `Writes.CleanAnswer` | internal/controller/zitientrarolesync_writes.go:59-77 | an outcome that is not failed, conflicted or skipped shows no retired value |
| `Writes.PendingExactly` | internal/rolesync/retirement.go:91-122 | without failures or conflicts, CleanupPending iff an ineligible listed identity holds a retired value or a skipped fresh read shows one |
| `Store.PassesIff` | internal/controller/zitientrarolesync_writes.go:44-54 | the ownership check passes iff nobody in the store precedes the sync on any managed value, in any list order |
| `Store.PassesMeans` | internal/rolesync/ownership.go:55-63 | passing means, in the stored fields, that every other recorded claim on a managed value is the younger one, or later by name at the same age |
| `Store.AtMostOnePasses` | internal/controller/zitientrarolesync_writes.go:49-54 | at one store two syncs cannot both pass on a value both recorded |
| `Decisions.PlanStepExactly` | internal/controller/zitientrarolesync_controller.go:93-119 | a run gets past planning iff its instance stands, there are User roles, nobody challenges a managed value, and no eligible identity holds one or some is granted one; else Conflict or WouldRemoveAll with P kept |
| `Decisions.DecideExactly` | internal/controller/zitientrarolesync_writes.go:49-66 | a PATCH is sent iff no managed value is challenged, the identity is there, unowned and under the planned label, and does not hold its grants; otherwise Conflicted, Deleted, Skipped or Observed, in this order |
| `Decisions.DecideNamesConflicts` | internal/controller/zitientrarolesync_writes.go:49-54 | a conflicted outcome names exactly the challenged managed values, and every report shows the attributes as read |
| `ProtocolShape.RecordIsCas` | internal/controller/zitientrarolesync_reads.go:149-167 | a claim write that takes effect turns exactly P into C + P on the live instance the run started from, and changes nothing else |
| `ProtocolShape.PersistIsBound` | internal/controller/zitientrarolesync_status.go:20-50 | the final status write lands on the live instance of the run's UID and replaces only its managed values |
| `ProtocolShape.PatchFrame` | internal/controller/zitientrarolesync_writes.go:34-82 | a PATCH changes one identity's attributes: eligible when listed, unowned and same label when re-read, unmanaged values kept, grants exact |
| `ProtocolShape.RaceExactly` | internal/controller/zitientrarolesync_writes.go:63-75 | a PATCH adds or drops an unmanaged value iff it was removed or added after the fresh read |
| `ProtocolShape.PendingInRun` | internal/controller/zitientrarolesync_controller.go:125-132 | the pending condition, for every write phase of every behaviour |
| `ProtocolHistory.TargetWasRead` | internal/controller/zitientrarolesync_writes.go:36-43 | the list a PATCH merges into was the backend's at the same run's fresh read for that very patch, and the PATCH was authorized against the claims and owners of a later moment |
| `ProtocolHistory.PatchWasUnchallenged` | internal/controller/zitientrarolesync_writes.go:44-62 | in every behaviour a PATCH was authorized at a moment when its instance stood, no other sync challenged a managed value, and the identity as read was unowned and under the external ID it was listed with |
| `ProtocolHistory.NothingFollowsHalt` | internal/controller/zitientrarolesync_writes.go:22-26 | in every behaviour a run that still reads, checks or sends has had no conflicted and no canceled outcome |
| `ProtocolHistory.RunHasBegun` | internal/controller/zitientrarolesync_controller.go:52-67 | a run serves from its beginning on the one instance it began with |
| `ProtocolHistory.PlanWasMade` | internal/controller/zitientrarolesync_controller.go:93-101 | a run's plan input is what the same run read, at an earlier planning step, of a live instance with its UID |
| `ProtocolHistory.StatusWriteInstance` | internal/controller/zitientrarolesync_reads.go:110-119 | every status write of a run lands on the live instance the run began with and whose live claims and listing it planned from, with one UID all along |
| `ProtocolGrants.GrantsStep` | internal/controller/zitientrarolesync_controller.go:79-133 | every step of every run, crash and outside event keeps the invariant that no placed grant is uncovered |
| `ProtocolGrants.NoForgottenGrants` | internal/controller/zitientrarolesync_controller.go:79-133 | a granted value held ever since is in the instance's recorded values, in every behaviour |
| `ProtocolGrants.AuthorizedTogether` | internal/controller/zitientrarolesync_writes.go:44-54 | in every behaviour two PATCHes of different syncs that were authorized against the same recorded claims have no managed value in common, serialized or not |
| `ProtocolClaims.ClaimsStayDisjoint` | internal/controller/zitientrarolesync_controller.go:73-75 | under serialized reconciles recorded claims are pairwise disjoint in every state |
| `ProtocolClaims.PatchSparesOtherClaims` | internal/controller/zitientrarolesync_writes.go:44-75 | in every serialized behaviour a PATCH neither adds nor removes, relative to its own fresh read, a value another sync has recorded |
| `Overlap.OverlapWithoutSerialization` | internal/controller/zitientrarolesync_controller.go:73-75 | without serialization two syncs can record the same value, for any two syncs and any value |
| `Undisturbed.WriteFrame` | internal/controller/zitientrarolesync_writes.go:16-32 | a write phase, early stops and failures included, keeps unmanaged values and leaves unplanned identities alone |
| `Undisturbed.StopsExactly` | internal/controller/zitientrarolesync_writes.go:16-32 | the phase takes its patches one by one, stops at the first conflicted or canceled outcome, and only there |
| `Undisturbed.NothingAfterHalt` | internal/controller/zitientrarolesync_writes.go:22-26 | nothing is written after such an outcome |
| `Undisturbed.CanceledIsNotReady` | internal/controller/zitientrarolesync_writes.go:19-31 | a run canceled before any patch or after the last does not complete Ready |
| `Undisturbed.CapIsNonInterfering` | internal/rolesync/planner.go:106-121 | under any two report caps the plans agree but for their reports, each the longest prefix of the full report its cap allows, and write phase and completion are identical |
| `Undisturbed.SyncedIsSound` | internal/rolesync/retirement.go:80-88 | a Ready run leaves every eligible identity with exactly its grants in C + P and no listed identity with a retired value |
| `Undisturbed.SyncedThenQuiet` | internal/rolesync/planner.go:66-81 | after a Synced run the next plan from the same directory has no patch |
| `Undisturbed.SyncsDoNotFight` | internal/controller/zitientrarolesync_writes.go:49-63 | a settled sync has no patch after any write phase of another sync that passed the ownership check |
| `Reconciler.RoleSyncReconciler.ReadOwnership` | internal/controller/zitientrarolesync_reads.go:121-147 | the live instance's own claim and every other sync's claim, or an error when replaced or deleting |
| `Reconciler.RoleSyncReconciler.RecordRoleClaims` | internal/controller/zitientrarolesync_reads.go:149-167 | skips an equal set, refuses changed claims, else writes the managed set |
| `Reconciler.RecordedExactly` | internal/controller/zitientrarolesync_reads.go:149-167 | the store changes only from exactly the claims planned from to the new ones, on the standing instance, and the run goes on iff that was acknowledged or not needed |
| `Reconciler.RoleSyncReconciler.ApplyRolePatch` | internal/controller/zitientrarolesync_writes.go:34-82 | outcome and backend of the pre-PATCH decision, for every fault; the backend changes only when no managed value is challenged, and the outcome is Conflicted iff one is and the reads succeeded |
| `Reconciler.ApplyOneExactly` | internal/controller/zitientrarolesync_writes.go:34-82 | on store and backend alone: when each outcome kind is reported, with which attributes and fault, when a PATCH is sent, and what it writes |
| `Reconciler.RoleSyncReconciler.WriteRolePlan` | internal/controller/zitientrarolesync_writes.go:16-32 | outcomes and backend of the whole phase, stopping at a conflict or cancellation |
| `Reconciler.RoleSyncReconciler.PlanRun` | internal/controller/zitientrarolesync_controller.go:97-119 | planned iff the instance stands, there are User roles, nobody challenges a managed value and the guard's condition fails; else finished with P kept |
| `Reconciler.RoleSyncReconciler.RunSync` | internal/controller/zitientrarolesync_controller.go:79-133 | store, backend and completion are those of the whole run |
| `Reconciler.RoleSyncReconciler.PersistSyncResult` | internal/controller/zitientrarolesync_status.go:20-50 | the final status write as `StatusWritten` has it, which `Refinement.StatusWriteIsSteps` shows to be the protocol's read and write |
| `Reconciler.RoleSyncReconciler.Reconcile` | internal/controller/zitientrarolesync_controller.go:52-67 | state after a run and its status write, whatever the run came to |
| `Reconciler.ReadyRunIsSound` | internal/controller/zitientrarolesync_controller.go:79-133 | a whole undisturbed run that completes Ready meets the Synced promise and has recorded C + P |
| `FaultFree.FaultFreePhase` | internal/controller/zitientrarolesync_writes.go:16-82 | without faults an authorized write phase ends Synced, or CleanupPending iff an ineligible listed identity holds a retired value |
| `FaultFree.FaultFreeWrites` | internal/controller/zitientrarolesync_writes.go:16-82 | without faults every eligible identity ends with exactly its grants within C + P and everything else as it was, and every other one is untouched |
| `FaultFree.FaultFreeRun` | internal/controller/zitientrarolesync_controller.go:79-133 | a run without faults, from conditions on store, directory and backend: it records C + P, leaves every listed identity with exactly its grants and ends Synced, or CleanupPending iff an ineligible identity holds a retired value; when the conditions fail it changes nothing |
| `TwoSyncs.SyncedAndPersisted` | internal/controller/zitientrarolesync_controller.go:52-67 | a Ready reconcile whose status write takes effect leaves claims C, disjoint from all others, and nothing to patch |
| `TwoSyncs.ReconcileClaims` | internal/controller/zitientrarolesync_controller.go:107-132 | any reconcile, with any faults, keeps recorded claims pairwise disjoint and changes nobody else's |
| `TwoSyncs.SamePatchInAnyOrder` | internal/rolesync/planner.go:66-81 | what a plan patches does not depend on the order in which identities or claims are listed |
| `TwoSyncs.SyncedStaysQuiet` | internal/controller/zitientrarolesync_controller.go:52-67 | after a Synced reconcile and any number of reconciles of other syncs, with any faults and status writes, the sync's next plan from the same directory, in any list order, has no conflict, no patch and no guard |
| `Refinement.RunIsBehavior` | internal/controller/zitientrarolesync_controller.go:79-133 | every undisturbed run is a sequence of protocol steps with the same end |
| `Refinement.StatusWriteIsSteps` | internal/controller/zitientrarolesync_status.go:20-50 | the status write is the protocol's read and conditional write, or nothing when the instance is gone |
| `Refinement.ReconcileIsBehavior` | internal/controller/zitientrarolesync_controller.go:52-67 | every undisturbed reconcile, status write included, is a sequence of protocol steps with the same end and no run left |
| `Refinement.StepsExtendBehavior` | internal/controller/zitientrarolesync_controller.go:79-133 | those steps continue any behaviour, so what holds in all behaviours holds of the reconciler's runs |
| `IdentityController.ZitiIdentityReconciler.Update` | internal/openziti/client/client.go:252-273 | an update of an unknown ID creates |
| `IdentityController.ZitiIdentityReconciler.ReconcileIdentity` | internal/controller/zitiidentity_controller.go:109-127 | writes one identity of the resource's write set, owned by it both before and after, on the update, adopt, create and recreate paths |
| `IdentityController.PlansAvoidWriteSets` | internal/rolesync/matching.go:10-20 | no plan names an identity in the write set, on the listed backend, of a resource it was made with |
| `IdentityController.WriteSetsAreDisjoint` | internal/controller/zitientrarolesync_writes.go:59-62 | in every behaviour a PATCH changes one identity, which is in the write set of no ZitiIdentity resource that existed at the run's own authorization, on the backend of its fresh read and on any where the identity still has its name |
| `Paging.ReadPages` | internal/entra/paging.go:22-44 | terminates, reads each endpoint at most once, and returns the items of the whole chain iff there is one |
| `Paging.ChainIff` | internal/entra/paging.go:25-43 | a chain starts at the endpoint, every page on it answers with a value array and links to the next, and the last links nowhere |
| `Paging.NoChainThroughCycle` | internal/entra/paging.go:26-28 | a link back to a page already read means there is no complete chain |
| `Routers.ResolveEdgeRouterId` | internal/controller/zitiservice_router_policies.go:64-73 | the trimmed ID, iff the router is found with a non-blank ID |
| `Routers.ResolveAdditional` | internal/controller/zitiservice_router_policies.go:37-55 | succeeds iff every name is non-blank and resolves, with one ID per distinct name |
| `Routers.RouterPolicies` | internal/openziti/service/router_policies.go:20-51 | edge router roles are the sorted set of the host's and the additional routers' roles |
| `Routers.DesiredRouterPolicies` | internal/controller/zitiservice_router_policies.go:12-62 | succeeds iff the Router identity, the host and every name resolve, with the canonical policies |
| `Routers.NamesAreASet` | internal/controller/zitiservice_router_policies.go:37-55 | order, repetition and surrounding space of names change neither success nor result |
| `Routers.TrimMeans` | internal/controller/zitiservice_router_policies.go:20 | trimming cuts all blanks off both ends and nothing else |
| `Routers.ResolvableIff` | internal/controller/zitiservice_router_policies.go:17-55 | resolves iff the host is a Router identity and a router, both with IDs, and every additional name is a router with an ID |
| `Routers.PoliciesMean` | internal/openziti/service/router_policies.go:20-51 | policy names, the one bind role of the Router identity, the service role, and as edge router roles exactly those of the host and the additional names, sorted |
| `Routers.ServiceRouterPolicies.Reconcile` | internal/controller/zitiservice_controller.go:104-121 | a declaration that does not resolve leaves both policies unchanged; one that does writes both or reports failure; without one the recorded policies are deleted |
| `Routers.ServiceRouterPolicies.DeleteRouterPolicies` | internal/controller/zitiservice_controller.go:208-222 | deletes what status records, the edge router policy first, stopping at a failure |
| `Routers.ServiceRouterPolicies.RemoveRouter` | internal/controller/zitiservice_controller.go:208-222 | removing the router leaves no policy behind iff status had recorded every policy that was there |
| `Routers.ServiceRouterPolicies.BindPolicyOutlivesRouter` | internal/controller/zitiservice_controller.go:109-121 | a bind policy written before its edge router policy failed stays when the router is then removed |

## Left out

- Graph and token HTTP, OAuth, JSON decoding, Retry-After and error sanitizing: directory reads are parameters that give a complete snapshot or fail.
- The guard on users without a `userPrincipalName` in `readGraph`: it only turns a read into a failure.
- Spec validation, conditions, messages, events (with `roleChanges`, which only fills one), logging, retry classification and status counters: single-branch facts or I/O.
- The OpenZiti client's session cache and the paging inside `ListIdentities`: the listing is taken as atomic.
- The three reads inside `readOwnership` are one step of the model, so an outside change between them is not covered.
- PATCHes and status writes that take effect only after their call has failed.
- Liveness under an environment that keeps changing things.
- IdentityController.ZitiIdentityReconciler.ReconcileIdentity: does not model enrollment, deletion or spec validation, and a create yields an empty external ID.
- Routers.ServiceRouterPolicies.Reconcile: does not model policy IDs beyond whether status has one, adoption by name, or a failing status write of the ZitiService.
- Reconciler.RoleSyncReconciler.PersistSyncResult: writes even when the status would not change; the code then skips the update.
- Removing a router need not remove its policies: the code records both policy IDs only after both writes succeed; `Routers.ServiceRouterPolicies.RemoveRouter` gives the exact condition.
- Routers: trimming knows ASCII white space only, and type comparison folds ASCII only.
- Access policy selectors, service and config reconciliation, credentials and enrollment Secrets: they would add easy members only.
