# Verification of the Infisical entity operator

The operator keeps Infisical organizations, projects, environments, machine identities, role
memberships, Kubernetes Auth and Universal Auth methods as Kubernetes resources ask for them. This
project models it as a machine over two stores: Kubernetes (spec, stored status, finalizer, the
published Secret) and Infisical (the entities, memberships and client secrets). A reconcile is a
sequence of calls. Every call may be answered, may fail before or after the server carried it out,
or may be the last one before a crash; the answers are parameters, so every theorem is about all of
them, and the runs are sequences of such reconciles, of edits by users and of interference by others.

## How it is laid out

- `Basics`, `Sorting`: names, replies, merge-patch fields, `sort.Strings`.
- `Roles`, `Csv`, `Metadata`, `Conditions`, `TokenCache`: the algorithmic helpers, each with its
  loops or its mutable class proved against a specification.
- `Lifecycle`, `LifecycleRuns`, `Histories`: what all reconcilers share, the contract of one
  reconcile on its object, and the theorems over whole histories.
- `Organizations`, `Projects`, `Environments`, `Identities`, `KubernetesAuths`, `UniversalAuths`:
  one reconcile of each kind as a function of the stored object, the server and the answers, with its
  drift-patch law and Ready soundness. `Reconcilers` and the six `...Controller` modules are the
  same reconciles as they run, changing fields step by step, proved equal to those functions.
- `Memberships`: the client's ensure sequence, the controller's reconciliation of one membership,
  and the loop over bindings.
- `Rotation`, `Agreement`, `Interference`, `Interruption`: the client-secret protocol over runs;
  `UniversalAuthMoments`: the states of the stores between any two effects of one reconcile.
- `Tenancy`: the organization boundary across controllers.
- `Settling`, `Clusters`, `Advancing`, `Visits`, `Convergence`: from one reconcile with every call
  answered to the convergence of a whole namespace. `Recovery`: one resource back from drift and
  loss. `Drift`: a whole namespace back from drift.

The server is faithful: it hands out new identifiers, reads return what is stored, a patch sets exactly
the fields sent, a restore clears soft deletion, removing a Universal Auth removes its client
secrets. An answer that breaks this (an identifier used before, a blank one) is read as a failed call.
A crash before a call leaves both stores as if that call and all later ones had failed without effect.

Run `dafny verify dfyconfig.toml` in this directory.

## What turned out not to hold

- The architecture document (docs/architecture.md, line 24) says that the ID of an external object that disappears is
  cleared. For an organization this holds exactly for machine credentials: under a user's
  credential the 404 is an error and the ID stays (`Organizations.DisappearanceIsNoticed`).
- The creator is granted admin before the project's organization is checked. `organizationRef` is
  immutable only once set (api/infisical/v1alpha1/infisicalproject_types.go, line 24), so a
  reference added later makes the grant go to a project of another organization
  (`Tenancy.LateReferenceEscapes`); the exact guard is that the stored organization is the referenced
  one (`Tenancy.GrantInsideExactlyWhenGuarded`).
- A project that the server places in another organization than the referenced one is created again
  by every reconcile and never recorded (`Projects.MisplacedCreationRepeats`, which says exactly when).
- An empty wanted description, a Universal Auth list wanted empty, and metadata with a repeated key
  are compared but cannot be satisfied by the patch; the drift-patch laws say exactly when.
- Allowlist values with commas pass the validation, and lists are compared as they print: every list of two
  or more values prints like some single value (`Csv.ToldApartExactly` says which lists are told apart).
- Bindings are checked to have different reference names, not different projects. Two resources that
  adopted one project make two bindings of it, and Ready=True is stored with only the last one granted
  (`Memberships.SharedProjectLosesFirst`; exactly, `Memberships.GrantedExactlyAsTheLast`).
- A settled resource is not always left alone: an empty list is left out of the stored status and read
  back as nil, and `persistStatus` finds it different from the empty slice that the observation makes. A
  project without environments, or an auth method with an empty list at the server, gets a status patch
  without content at every reconcile (`Clusters.RestsExactly`).
- Ready=True can be stored while the Secret names another client secret than the recorded one: after a
  rotation that published the new one and failed to revoke the old one, when the Secret was missing and the
  nonce had not changed (`Interruption.FailedRevokeForks`; exactly, `Interruption.ReadyNamesAnotherExactly`).
- A project that is gone at the server is reported as a failed grant, and its ID never cleared, when it
  references an organization and its creator is a machine (`Recovery.ProjectForgottenExactly`).
- On two empty lists the controller's role comparison is false and the client's is true, because a
  nil slice is compared with an empty one (`Roles.ComparisonsAgree`); the controller never compares
  an empty declared list.
- With the same data key for the client ID and the client secret, the published Secret loses the
  client ID (`Agreement.ThreeWayAgreement`).
- For projects and organizations the reason `CreationNotAllowed` cannot be reached: the adopt step has already
  reported the remote entity as missing (`Projects.NeverCreationNotAllowed` and its namesake).

## Model

| member | source | states |
|---|---|---|
| Rotation.PublishedIsNeverRevoked | internal/controller/infisical/infisicaluniversalauth_controller.go:297-312 | publish before revoke, at the end of every run: with any call failing or losing its reply, and others revoking client secrets or deleting the Secret, the client secret that the published Secret names was never revoked by the operator |
| UniversalAuthMoments.SafeAtEveryMoment | internal/controller/infisical/infisicaluniversalauth_controller.go:297-312 | publish before revoke, between any two effects: after any run, and after every single change that the next reconcile or anyone else meanwhile makes to the stores, the client secret that the published Secret names was never revoked by the operator |
| UniversalAuthMoments.MomentsEnd | internal/controller/infisical/infisicaluniversalauth_controller.go:54-138 | the moments are those of this reconcile: the last of them is the state in which the reconcile leaves the stores |
| Rotation.LeakBound | internal/controller/infisical/infisicaluniversalauth_controller.go:254-322 | leak accounting: over any run the working client secrets that the status does not record grow by at most one per reconcile that created one and did not record it; from none, at most 1 + F work in all |
| Rotation.ReconcileKeeps | internal/controller/infisical/infisicaluniversalauth_controller.go:54-138 | one reconcile, wherever it stops: at most one client secret issued, no other kept alive, a recorded one given up only when it no longer works, and the published one stays safe |
| Rotation.RemoveAccounts | internal/controller/infisical/infisicaluniversalauth_controller.go:403-422 | deletion issues nothing and keeps no client secret alive that did not work before |
| Rotation.LooseGrowth | internal/controller/infisical/infisicaluniversalauth_controller.go:297-321 | what one step adds to the unrecorded client secrets is at most one, and only when the rotation was interrupted |
| Agreement.ThreeWayAgreement | internal/controller/infisical/infisicaluniversalauth_controller.go:259-321 | in runs with no interrupted rotation, a recorded success leaves the recorded ID, the annotation of the Secret and the only working client secret equal, and the Secret carries its value; it carries the current client ID exactly when the two data keys differ or the two values coincide |
| Interference.AgreementUnderInterference | internal/controller/infisical/infisicaluniversalauth_controller.go:259-321 | the same with others acting at any moment, also inside a reconcile: no client secret works but the recorded one, and a Secret that is still there names it and carries its value |
| Interruption.ReadyNamesAnotherExactly | internal/controller/infisical/infisicaluniversalauth_controller.go:259-289 | when Ready=True is stored, the published Secret names another client secret than the recorded one exactly when it did before and the recorded one works under the wanted nonce; such a reconcile leaves both as they are |
| Interruption.NamesAnotherOnlyAfterInterruption | internal/controller/infisical/infisicaluniversalauth_controller.go:254-322 | the same after any run, and without an interrupted rotation in the run it does not happen |
| Interruption.FailedRevokeForks | internal/controller/infisical/infisicaluniversalauth_controller.go:297-312 | it happens: the Secret is deleted, the rotation that follows publishes a new client secret and fails to revoke the old one, and the next reconcile stores Ready=True with the Secret naming the new one and the status the old one |
| Agreement.QuietReconcile | internal/controller/infisical/infisicaluniversalauth_controller.go:111-137 | from a synced state, only an interrupted rotation can leave the status, the Secret and the working client secrets out of step |
| Agreement.ReadyIsSound | internal/controller/infisical/infisicaluniversalauth_controller.go:111-137 | Ready is sound for Universal Auth: attached to the identity; every setting that can be sent is as wanted, so that all are except exactly a list that is wanted empty and is not; status as the server up to empty lists, recorded client secret working, Secret published |
| Agreement.StuckNeverSettles | internal/controller/infisical/infisicaluniversalauth_controller.go:154-203 | a list wanted empty that is not empty is patched by every successful reconcile without effect |
| UniversalAuths.PatchSettlesDrift | internal/controller/infisical/infisicaluniversalauth_controller.go:154-203 | the patch makes the drift test false except exactly when a list wanted empty is not; unset fields keep their values |
| UniversalAuths.PatchedIsAsWanted | internal/controller/infisical/infisicaluniversalauth_controller.go:154-203 | after the request, and without one when none is needed, a further request would change nothing, and the drift test is true exactly for a list wanted empty that is not |
| UniversalAuths.EmptyIsOmitted | internal/controller/infisical/infisicaluniversalauth_controller.go:220-252 | the settings observed differ from what is read back after storing them exactly when a list is empty |
| UniversalAuths.ReconcileTimely | internal/controller/infisical/infisicaluniversalauth_controller.go:396-401 | a reconcile leaves both generations of the status or judges the current one; success always brings the observed one up to date |
| UniversalAuths.GoneOnlyAfterDetach | internal/controller/infisical/infisicaluniversalauth_controller.go:403-422 | with policy Delete the object disappears only after the recorded client secret was revoked and the auth method detached |
| UniversalAuthController.ReconcileAuth | internal/controller/infisical/infisicaluniversalauth_controller.go:54-138 | the reconcile, changing status and stores call by call, ends as the specification function says, and has taken the stores through exactly the specified moments, every one of which is safe unless the resource is being deleted (UniversalAuthMoments.SafeAtEveryMoment) |
| UniversalAuthController.EnsureClientSecret | internal/controller/infisical/infisicaluniversalauth_controller.go:254-289 | the decision to keep, recover or rotate, with its in-memory status changes and the moments of the stores |
| UniversalAuthController.RotateClientSecret | internal/controller/infisical/infisicaluniversalauth_controller.go:291-322 | create, publish, revoke, record, in this order, each step reached only if the one before succeeded; the moments of the stores are the specified ones, in that order |
| UniversalAuthController.PublishSecret | internal/controller/infisical/infisicaluniversalauth_controller.go:337-365 | the output Secret is read again, refused when another resource controls it, and written with the other data kept |
| Convergence.FiveSweepsSettle | internal/controller/infisical/infisicalidentity_controller.go:79-221 | global convergence: from any mix of resources that were never acquired, that are settled, and that hold the ID of an entity in place, whatever has drifted and whatever their verdicts, under policy Create and with a faithful server, five sweeps in any order make every resource Ready, and whatever is reconciled after that changes nothing, and only reads exactly when no visited resource shows a list that is empty |
| Convergence.FourSweepsSettleWhenAwake | internal/controller/infisical/common.go:191-197 | four sweeps do when no finalizer is still to be added |
| Drift.DriftIsCorrected | docs/architecture.md:30-41 | drift of a whole namespace: entities renamed and reconfigured, memberships rewritten, environments deleted softly, client secrets revoked, the output Secret deleted or rewritten, statuses showing anything; four sweeps in any order make every resource Ready again and bring everything to rest |
| Drift.DriftedQualifies | docs/architecture.md:30-41 | after such drift the namespace is again a start for the sweeps, in any state on the way |
| Convergence.SweepsFreshen | internal/controller/infisical/infisicalproject_controller.go:216-219 | the sweep after the environments are settled brings the environments that every project shows up to date |
| Convergence.ReadyByRank | internal/controller/infisical/infisicalproject_controller.go:47-153 | the bound by depth: a resource of rank d (organization, project, environment or identity, auth) is Ready after d + 2 sweeps |
| Convergence.ReadyByRankWhenAwake | internal/controller/infisical/common.go:191-197 | one sweep less when no finalizer is still to be added |
| Convergence.SettledForGood | internal/controller/infisical/common.go:302-309 | once everything is at rest every further run of reconciles leaves the cluster as it is; it sends no write exactly when no visited resource shows a list that is empty at the server, and otherwise status patches without content |
| Convergence.StartQualifies | docs/architecture.md:24 | a namespace in which nothing has been acquired is a valid start |
| Visits.Visited | docs/architecture.md:30-41 | one visit keeps the invariant of the cluster and whatever is settled, up to the environments that projects list; and settles the resource, never acquired or drifted, when what it needs is settled |
| Visits.PlacedKept | docs/architecture.md:30-41 | a reconcile of another resource leaves an entity, and the resource that holds its ID, in place |
| Visits.RefreshedKeeps | internal/controller/infisical/infisicalproject_controller.go:216-219 | bringing the environments that a settled project shows up to date unsettles nothing |
| Clusters.RestsExactly | internal/controller/infisical/common.go:302-309 | a reconcile of a resource at rest, of any kind, changes nothing at all, and sends a write exactly when a list that its status shows is empty at the server: a nil slice and an empty one differ |
| Clusters.ProjectRefreshes | internal/controller/infisical/infisicalproject_controller.go:150-152 | a reconcile of a settled project changes only the environments it shows, to those of the server, and writes exactly when they were not current or are none |
| Clusters.ArrivalDisturbsOwnProject | internal/controller/infisical/common.go:353-363 | an environment that is new at the server changes the list of exactly its own project |
| Settling.ProjectRelists | internal/controller/infisical/infisicalproject_controller.go:133-152 | the whole outcome of a reconcile of a settled project, for any list of environments that the server answers with: the write comes from the comparison of what was read back with what was observed |
| Clusters.DoneKept | internal/controller/infisical/infisicalidentity_controller.go:228-258 | settling one resource, or refreshing the environments a project shows, does not unsettle another |
| Advancing.StaysIntact | internal/controller/infisical/infisicalidentity_controller.go:178-218 | a reconcile leaves the entities and memberships that other resources manage as they are |
| Advancing.AnchoredIsBindable | internal/controller/infisical/infisicalidentity_controller.go:228-258 | whatever else is not settled yet, the bindings of an anchored identity resolve to existing projects, all different |
| Advancing.NeedsAnchored | internal/controller/infisical/infisicalidentity_controller.go:228-258 | with its organization and bound projects settled, an identity is anchored and its bindings resolve to distinct existing projects |
| Settling.OrganizationSettles | internal/controller/infisical/infisicalorganization_controller.go:79-108 | from empty to Ready in one reconcile, the store changed by exactly the new organization |
| Settling.ProjectSettles | internal/controller/infisical/infisicalproject_controller.go:77-152 | from empty to Ready in one reconcile: exactly the new project, and at most the admin grant of the creator |
| Settling.EnvironmentSettles | internal/controller/infisical/infisicalenvironment_controller.go:83-143 | from empty to Ready in one reconcile, the store changed by exactly the new environment |
| Settling.IdentitySettles | internal/controller/infisical/infisicalidentity_controller.go:104-220 | from empty to Ready in one reconcile: exactly the new identity, and memberships of this identity only |
| Settling.KubernetesAuthSettles | internal/controller/infisical/infisicalkubernetesauth_controller.go:89-138 | from empty to Ready in one reconcile, attached to the identity as wanted |
| Settling.UniversalAuthSettles | internal/controller/infisical/infisicaluniversalauth_controller.go:85-137 | from empty to Ready in one reconcile: attached, a client secret created, published and recorded |
| Recovery.OrganizationRecovers | internal/controller/infisical/infisicalorganization_controller.go:110-126 | one reconcile settles an organization whatever its status had become, as long as the entity exists |
| Recovery.ProjectRecovers | internal/controller/infisical/infisicalproject_controller.go:117-153 | one reconcile settles a project whose stored ID exists in the right organization, whatever fields, grants or verdict had drifted, unless a description is wanted empty that is not; nothing else at the server changes but the creator membership |
| Recovery.ProjectForgottenExactly | internal/controller/infisical/infisicalproject_controller.go:117-131 | a project that is gone at the server is forgotten exactly when it references no organization or its creator is not a machine; otherwise the grant fails before the read that would notice, and the ID stays |
| Recovery.EnvironmentRecovers | internal/controller/infisical/infisicalenvironment_controller.go:112-143 | one reconcile settles an environment whose stored ID exists in its project, soft-deleted or drifted |
| Recovery.EnvironmentReturns | internal/controller/infisical/infisicalenvironment_controller.go:112-125 | an environment that is gone, or in another project, is forgotten by one reconcile and settled under a new ID by the next |
| Recovery.IdentityRecovers | internal/controller/infisical/infisicalidentity_controller.go:174-220 | one reconcile settles a valid identity whose stored ID exists under its owner and whose bindings resolve to existing projects, whatever fields and memberships had drifted |
| Recovery.IdentityReturns | internal/controller/infisical/infisicalidentity_controller.go:159-173 | an identity that is gone is forgotten by one reconcile and settled under a new ID by the next |
| Recovery.KubernetesAuthRecovers | internal/controller/infisical/infisicalkubernetesauth_controller.go:113-138 | one reconcile settles a Kubernetes Auth method that is attached, whatever settings had drifted |
| Recovery.KubernetesAuthReturns | internal/controller/infisical/infisicalkubernetesauth_controller.go:113-126 | a Kubernetes Auth method that is no longer attached is forgotten by one reconcile and attached again by the next |
| Recovery.UniversalAuthRecovers | internal/controller/infisical/infisicaluniversalauth_controller.go:111-137 | one reconcile settles a Universal Auth that is attached, whatever became of its settings, its client secrets and its Secret, unless a list is wanted empty that is not or another resource controls the Secret |
| LifecycleRuns.IdMoves | internal/controller/infisical/common.go:302-309 | a stored external ID moves only from empty to x in a reconcile that stores Ready=True, or from x to empty when the entity was found missing |
| LifecycleRuns.NeverJumps | docs/architecture.md:24 | over any run two different stored IDs are separated by a state that stores none |
| LifecycleRuns.CreationsAccountedFor | internal/controller/infisical/infisicalidentity_controller.go:142-173 | successful creations equal acquisitions by creation plus reconciles that created but did not store Ready=True |
| LifecycleRuns.GenerationsBooked | internal/controller/infisical/infisicalproject_controller.go:216-226 | over any run the observed generation never decreases, never exceeds the Ready generation, which never exceeds the object generation; Ready=True makes the first two equal |
| LifecycleRuns.ProtectedThroughout | internal/controller/infisical/common.go:191-205 | with policy Delete throughout, a stored ID implies the finalizer and the parent ID that the delete call needs |
| LifecycleRuns.GoneOnlyAfterRemoteDelete | internal/controller/infisical/common.go:199-205 | with policy Delete throughout, the object disappears only after the delete of exactly the stored ID was confirmed (done or 404) |
| LifecycleRuns.DeletesOnlyWhatIsStored | internal/controller/infisical/common.go:207-212 | a delete call is sent only under policy Delete, for an object being deleted, and only for its stored ID; under Orphan never |
| Histories.OrganizationHistory | internal/controller/infisical/infisicalorganization_controller.go:46-66 | every history of organization reconciles and edits is such a run |
| Histories.ProjectHistory | internal/controller/infisical/infisicalproject_controller.go:47-153 | every history of project reconciles and edits is such a run |
| Histories.EnvironmentHistory | internal/controller/infisical/infisicalenvironment_controller.go:46-144 | every history of environment reconciles and edits is such a run, whose delete call needs the project ID |
| Histories.IdentityHistory | internal/controller/infisical/infisicalidentity_controller.go:57-77 | every history of identity reconciles and edits is such a run; for project scope the delete call needs the project ID |
| Histories.KubernetesAuthHistory | internal/controller/infisical/infisicalkubernetesauth_controller.go:51-139 | the generation bookkeeping covers every history of Kubernetes Auth reconciles and edits |
| Histories.UniversalAuthHistory | internal/controller/infisical/infisicaluniversalauth_controller.go:54-138 | the generation bookkeeping covers every history of Universal Auth reconciles and edits |
| Reconcilers.Reconciler.PersistStatus | internal/controller/infisical/common.go:302-309 | the merge patch between two in-memory copies: an unchanged field keeps its stored value, empty lists are left out of what is stored, and nothing is sent exactly when the copies are equal, a nil list and an empty one not being |
| Reconcilers.Reconciler.Fail | internal/controller/infisical/infisicalproject_controller.go:221-226 | the error helper starts its patch after the in-memory changes, so no newly observed ID is stored |
| Reconcilers.Reconciler.Finish | internal/controller/infisical/infisicalproject_controller.go:150-152 | success patches from the status as it was first read |
| Reconcilers.Reconciler.Lose | internal/controller/infisical/infisicalproject_controller.go:121-131 | the missing path clears the ID and what hangs on it |
| Reconcilers.Reconciler.EnsureFinalizer | internal/controller/infisical/common.go:191-197 | the finalizer is added when absent, and ends the reconcile |
| Reconcilers.Reconciler.RemoveFinalizer | internal/controller/infisical/common.go:199-205 | the finalizer is removed when present, and the object goes |
| Projects.ReconcileSteps | internal/controller/infisical/infisicalproject_controller.go:47-153 | whatever the calls answer, a project reconcile keeps the lifecycle contract |
| Projects.ReadyIsSound | internal/controller/infisical/infisicalproject_controller.go:133-152 | Ready is sound: the project exists in the expected organization, every managed field is as wanted, and the stored status is what the server holds, up to an empty list |
| Projects.SettleIsSound | internal/controller/infisical/infisicalproject_controller.go:133-152 | the description is as wanted exactly when one is wanted or the remote one was already empty |
| Projects.ReadyGrantsCreator | internal/controller/infisical/infisicalproject_controller.go:155-170 | after Ready=True a machine-identity creator of an organization-bound project is its permanent admin |
| Projects.PatchSettlesDrift | internal/controller/infisical/infisicalproject_controller.go:137-148 | the patch makes the drift test false except exactly when an empty description meets one that is not (or a blank name); unset fields keep their values |
| Projects.ActIsReal | internal/controller/infisical/infisicalproject_controller.go:95-131 | exactly the project reported as created is new; without a delete call none is gone, and after a confirmed one exactly that one is |
| Projects.MisplacedCreationRepeats | internal/controller/infisical/infisicalproject_controller.go:77-116 | with every call answered, a reconcile creates a project without storing its ID exactly when it gets to the create call and the server places the project in another organization than the referenced one; unless the policy adopts, the next reconcile gets there again |
| Projects.EmptyDescriptionNeverSettles | internal/controller/infisical/infisicalproject_controller.go:137-148 | an empty wanted description against one that is not is patched by every successful reconcile without effect |
| Projects.ChangesAreSent | internal/controller/infisical/infisicalproject_controller.go:155-170 | a membership that a project reconcile changed is one it sent a write for |
| Projects.NeverCreationNotAllowed | internal/controller/infisical/infisicalproject_controller.go:77-97 | the reason CreationNotAllowed is never reported for a project |
| Projects.StaysReadBack | internal/controller/infisical/common.go:302-309 | no reconcile stores an empty list |
| ProjectController.ReconcileProject | internal/controller/infisical/infisicalproject_controller.go:47-153 | the reconcile, changing status and server step by step, ends as the specification function says |
| ProjectController.AcquireProject | internal/controller/infisical/infisicalproject_controller.go:77-116 | adopt or create, with the in-memory status kept apart from the stored one |
| ProjectController.EnsureCreatorMembership | internal/controller/infisical/infisicalproject_controller.go:155-170 | the creator grant, through the membership client |
| ProjectController.ReconcileDeletion | internal/controller/infisical/infisicalproject_controller.go:228-241 | delete remotely unless orphaned or without an ID, then let the object go |
| Organizations.ReconcileSteps | internal/controller/infisical/infisicalorganization_controller.go:68-127 | whatever the calls answer, an organization reconcile keeps the lifecycle contract |
| Organizations.ReadyIsSound | internal/controller/infisical/infisicalorganization_controller.go:110-126 | Ready is sound: the organization exists and is the one asked for by ID |
| Organizations.DisappearanceIsNoticed | internal/infisicalclient/organizations.go:84-114 | an organization that disappeared has its stored ID cleared exactly when the credential is a machine identity; under a user the 404 is reported as a read error and the ID stays, unlike the architecture document says |
| Organizations.ActIsReal | internal/controller/infisical/infisicalorganization_controller.go:91-108 | exactly the organization reported as created is new; without a delete call none is gone, and after a confirmed one exactly that one is |
| Organizations.NeverCreationNotAllowed | internal/controller/infisical/infisicalorganization_controller.go:79-95 | the reason CreationNotAllowed is never reported for an organization |
| OrganizationController.ReconcileRequest | internal/controller/infisical/infisicalorganization_controller.go:46-66 | the reconcile ends as the specification function says |
| OrganizationController.ReconcileOrganization | internal/controller/infisical/infisicalorganization_controller.go:68-127 | validation, adoption, creation with its early return, read-back, in order |
| Environments.ReconcileSteps | internal/controller/infisical/infisicalenvironment_controller.go:46-144 | whatever the calls answer, an environment reconcile keeps the lifecycle contract; a stored ID always comes with its project ID |
| Environments.ReadyIsSound | internal/controller/infisical/infisicalenvironment_controller.go:112-143 | Ready is sound: the environment is in the project, not soft-deleted, with the wanted name and position, and the status shows it |
| Environments.PatchSettlesDrift | internal/controller/infisical/infisicalenvironment_controller.go:130-139 | the patch makes the drift test false unless the wanted name is blank; an unset position keeps its value |
| Environments.ActIsReal | internal/controller/infisical/infisicalenvironment_controller.go:97-110 | exactly the environment reported as created is new; without a delete call none is soft-deleted, and after a confirmed one exactly that one is |
| EnvironmentController.ReconcileEnvironment | internal/controller/infisical/infisicalenvironment_controller.go:46-144 | the reconcile ends as the specification function says |
| EnvironmentController.SettleEnvironment | internal/controller/infisical/infisicalenvironment_controller.go:112-143 | read-back by ID, restore of a soft-deleted environment, drift correction, verdict |
| Identities.ReconcileSteps | internal/controller/infisical/infisicalidentity_controller.go:79-221 | whatever the calls answer, an identity reconcile keeps the lifecycle contract |
| Identities.ReadyIsSound | internal/controller/infisical/infisicalidentity_controller.go:174-220 | Ready is sound: the identity exists under its owner with every managed field as wanted; it holds exactly the declared permanent roles in its project or, organization-scoped, in each bound project those of the last binding of that project that declares any |
| Identities.PatchSettlesDrift | internal/controller/infisical/infisicalidentity_controller.go:178-195 | the patch makes the drift test false except exactly when a wanted metadata key repeats (or the name is blank); unset fields keep their values |
| Identities.AnchorLaw | internal/controller/infisical/infisicalidentity_controller.go:228-272 | an anchor is never empty, and every bound project was observed in the referenced organization |
| Identities.CheckBindings | internal/controller/infisical/infisicalidentity_controller.go:307-320 | the validation loop accepts exactly the lists of non-blank, distinct references with valid role lists |
| Identities.AnchorBindings | internal/controller/infisical/infisicalidentity_controller.go:240-256 | the resolution loop stops at the first binding that is not ready or belongs elsewhere |
| Identities.ActIsReal | internal/controller/infisical/infisicalidentity_controller.go:142-173 | exactly the identity reported as created is new; without a delete call none is gone, and after a confirmed one exactly that one is |
| Identities.ChangesAreSent | internal/controller/infisical/infisicalidentity_controller.go:393-414 | a membership that a reconcile of an identity changed is one it sent a write for |
| IdentityController.ReconcileRequest | internal/controller/infisical/infisicalidentity_controller.go:57-77 | the reconcile ends as the specification function says |
| IdentityController.ReconcileIdentity | internal/controller/infisical/infisicalidentity_controller.go:79-221 | validation, anchor, acquisition, drift and memberships, in order |
| IdentityController.BindIdentity | internal/controller/infisical/infisicalidentity_controller.go:197-218 | the memberships of the identity, for either scope, through the membership loop |
| IdentityController.ValidateSpec | internal/controller/infisical/infisicalidentity_controller.go:274-324 | a spec is accepted exactly when its scope, references, role and bindings agree |
| KubernetesAuths.ReadyIsSound | internal/controller/infisical/infisicalkubernetesauth_controller.go:113-138 | Ready is sound: attached to the identity, status as the server up to empty lists, and nothing the spec wants differs |
| KubernetesAuths.PatchSettlesDrift | internal/controller/infisical/infisicalkubernetesauth_controller.go:171-203 | the patch always satisfies the drift test and leaves every unset field as it was, apart from the review mode |
| KubernetesAuths.AttachedFits | internal/controller/infisical/infisicalkubernetesauth_controller.go:153-169 | what attaching stores needs no correction except exactly when a list is wanted empty and the server defaults to another |
| KubernetesAuths.AllowlistsReadBack | internal/controller/infisical/infisicalkubernetesauth_controller.go:331-334 | either allowlist that the patch stores is observed as the declared one, sorted, exactly when none of its values has a comma |
| KubernetesAuths.EmptyIsOmitted | internal/controller/infisical/infisicalkubernetesauth_controller.go:365-396 | what is observed differs from what is read back after storing it exactly when a list is empty or splits to nothing |
| KubernetesAuths.StaysReadBack | internal/controller/infisical/common.go:302-309 | no reconcile stores an empty list |
| KubernetesAuths.ReconcileTimely | internal/controller/infisical/infisicalkubernetesauth_controller.go:51-139 | a reconcile leaves both generations of the status or judges the current one |
| KubernetesAuths.GoneOnlyAfterDetach | internal/controller/infisical/infisicalkubernetesauth_controller.go:415-428 | with policy Delete the object disappears only once nothing is attached to the identity its status names |
| KubernetesAuthController.ReconcileAuth | internal/controller/infisical/infisicalkubernetesauth_controller.go:51-139 | the reconcile ends as the specification function says |
| Tenancy.TenantBoundary | internal/controller/infisical/infisicalidentity_controller.go:228-258 | in every reachable state, every membership write that is sent for an organization-scoped identity, or as creator grant of a project that references an organization, applied or not, is for a project of that organization |
| Tenancy.ChangedOnlyIfSent | internal/controller/infisical/infisicalidentity_controller.go:416-454 | no reconcile changes a membership without having sent a write for it |
| Tenancy.ProjectStaysInside | internal/controller/infisical/infisicalproject_controller.go:83-117 | one project reconcile keeps what is stored truthful and sends membership writes only inside the referenced organization |
| Tenancy.IdentityStaysInside | internal/controller/infisical/infisicalidentity_controller.go:393-414 | every role write that a reconcile of an organization-scoped identity sends is for a project of its organization |
| Tenancy.GrantInsideExactlyWhenGuarded | internal/controller/infisical/infisicalproject_controller.go:117-135 | the grant comes before the organization is checked: for a stored project it stays inside exactly when the stored organization is the referenced one |
| Tenancy.LateReferenceEscapes | internal/controller/infisical/infisicalproject_controller.go:117-135 | it happens: from an untouched object, a project created without a reference, a reference added to it, and the next reconcile sends the grant to a project of another organization |
| Memberships.LoopLaw | internal/controller/infisical/infisicalidentity_controller.go:393-414 | for distinct projects: bindings before the stop are settled exactly (all permanent, no more), later ones untouched, the one at the stop either way |
| Memberships.LastBindingWins | internal/controller/infisical/infisicalidentity_controller.go:393-414 | for any projects: after a loop that succeeds a membership is exactly what the last binding of its project with roles declares, and untouched when there is none |
| Memberships.GrantedExactlyAsTheLast | internal/controller/infisical/infisicalidentity_controller.go:393-414 | after a loop that succeeds a binding with roles is granted exactly when the last such binding of its project declares the same roles |
| Memberships.SharedProjectLosesFirst | internal/controller/infisical/infisicalidentity_controller.go:307-320 | two bindings of different names can name one project, and then the loop succeeds without the first being granted |
| Memberships.LoopWrites | internal/controller/infisical/infisicalidentity_controller.go:393-414 | at most one write per binding, and success exactly when every binding was reached |
| Memberships.LoopFrame | internal/controller/infisical/infisicalidentity_controller.go:393-414 | memberships of any other project or identity never change |
| Memberships.LoopKeeps | internal/controller/infisical/infisicalidentity_controller.go:393-414 | the loop never takes a membership away |
| Memberships.ChangedWasWritten | internal/controller/infisical/infisicalidentity_controller.go:416-454 | the loop changes only memberships that it sent a write for |
| Memberships.BindOneLaw | internal/controller/infisical/infisicalidentity_controller.go:416-454 | one membership: at most one write, which gives exactly the declared permanent roles; success means they are granted |
| Memberships.Client.ReconcileBindings | internal/controller/infisical/infisicalidentity_controller.go:393-414 | the loop ends as its specification function says, with exactly as many writes |
| Memberships.Client.ReconcileMembership | internal/controller/infisical/infisicalidentity_controller.go:416-454 | read, create when absent, compare, update when different, read again |
| Memberships.Client.EnsureMembership | internal/infisicalclient/identities.go:372-386 | the ensure sequence of the client: no write when equal, update when different, create when absent |
| Roles.ComparisonsAgree | internal/infisicalclient/identities.go:411-428 | for every valid list the nested-loop comparison, the sorted comparison and being exactly the permanent multiset agree; they part only when both lists are empty |
| Roles.CoveringIsExact | internal/infisicalclient/identities.go:411-428 | pigeonhole: equally many observed roles that cover distinct desired ones are exactly those |
| Roles.WrittenRolesAreGranted | internal/infisicalclient/identities.go:403-409 | what the operator writes is read back as equal by both comparisons |
| Roles.ValidatedSlugs | internal/controller/infisical/common.go:402-425 | exactly the duplicate-free lists of built-in roles are accepted, and returned sorted |
| Roles.ClientRolesEqual | internal/infisicalclient/identities.go:411-428 | the nested loops compute: equal length and every desired role among the permanent ones |
| Roles.ControllerRolesEqual | internal/controller/infisical/common.go:427-437 | the sorting loop computes: non-empty, all permanent, equal sorted lists |
| Roles.MembershipRequest | internal/infisicalclient/identities.go:403-409 | the request asks for every slug as a permanent role |
| Csv.RoundTrip | internal/controller/infisical/infisicalkubernetesauth_controller.go:383-406 | print then parse gives the sorted list exactly when every value is non-empty, trimmed and free of commas |
| Csv.DriftIsMultisetDifference | internal/controller/infisical/infisicalkubernetesauth_controller.go:331-334 | on such values two lists print alike exactly when they are equal as multisets |
| Csv.ToldApartExactly | internal/controller/infisical/infisicalkubernetesauth_controller.go:259-272 | among the lists that pass the validation, one prints unlike every other exactly when it has a single value and that is not itself the print of a longer list: the validation lets commas through |
| Csv.SplitCsv | internal/controller/infisical/infisicalkubernetesauth_controller.go:383-396 | the parsing loop keeps exactly the trimmed, non-empty parts, and a blank value gives a nil list |
| Csv.RejectedValue | internal/controller/infisical/infisicalkubernetesauth_controller.go:259-272 | the validation loop finds the first value that is empty or not trimmed |
| Metadata.MetadataEqual | internal/controller/infisical/common.go:376-400 | the two-map loop is true exactly when nothing is wanted, or lengths match, keys are unique on both sides, and every wanted pair is found or, wanted empty, absent |
| Metadata.MatchesIsPermutation | internal/controller/infisical/common.go:376-400 | with no empty value wanted: exactly when keys are unique and the observed pairs are a permutation of the wanted ones |
| Metadata.EmptyValueHidesAbsence | internal/controller/infisical/common.go:394-398 | an entry wanted with an empty value is read back from a list that does not have it |
| Conditions.Shape | internal/controller/infisical/common.go:250-281 | after any non-empty history there are exactly three conditions, each repeating the latest call and dated by the call that last changed its status |
| Conditions.ExactlyOneTrue | internal/controller/infisical/common.go:231-248 | exactly one of the three is True, Ready exactly after a True call |
| Conditions.ChangesExactlyOnNewReport | internal/controller/infisical/common.go:250-281 | a further call changes the list exactly when its report differs from the latest one, and the Ready entry alone tells |
| Conditions.ConditionList.Set | internal/controller/infisical/common.go:231-248 | the three entries are edited in place as the specification says |
| Conditions.ConditionList.SetSingle | internal/controller/infisical/common.go:250-281 | one entry is kept, replaced with or without a new transition time, or appended |
| Conditions.ConditionReady | internal/controller/infisical/common.go:293-300 | true exactly when some Ready entry is True |
| TokenCache.CacheIsLastExchange | internal/infisicalclient/client.go:186-233 | the cache always holds the last successful exchange and its window |
| TokenCache.ServedOnlyInItsWindow | internal/infisicalclient/client.go:193-195 | a token is served from the cache only strictly before its lifetime less the skew has run out; a lifetime of zero or less never |
| TokenCache.ServedTokenIsValid | internal/infisicalclient/client.go:219-232 | a served token is valid at the server whenever the login reply took at most the skew |
| TokenCache.NoExchangeInsideTheWindow | internal/infisicalclient/client.go:186-195 | a successful exchange is followed by no other until its window ends |
| TokenCache.Client.BearerToken | internal/infisicalclient/client.go:186-233 | the fields change as the specification step says, with truncating division for the skew |

## Left out

- Convergence.FiveSweepsSettle: assumes that no two Universal Auth resources share an identity or an output Secret, and no two Kubernetes Auth resources an identity; that the creator is not one of the managed identities, so that no binding can fight its admin role; and that nobody else changes the stores. It starts from resources that are settled, were never acquired, or hold the ID of an entity that is in place; the way back from lost entities is stated kind by kind, in Recovery, and not for a whole namespace.
- Agreement.ThreeWayAgreement: others act between reconciles only, and the data keys of the output Secret stay; with an interference inside a reconcile the recorded client secret may already be revoked when it is recorded, and Interference.AgreementUnderInterference states what is left.
- Rotation.PublishedIsNeverRevoked: the reference to the output Secret is fixed and nobody else writes that Secret (deleting it is allowed); deletion of the resource is not covered, because it revokes on purpose.
- Tenancy.TenantBoundary: the observed IDs of organizations are fixed, and a project's status does not change within one reconcile that reads it.
- Organizations.ReadyIsSound: under a machine credential the name of the organization is not visible, so only its existence and ID are stated.
- The IDs of the two auth methods stay out of the ID-transition theorems: both reconcilers read by identity, so the stored ID follows whatever is attached.
- The full condition list inside the reconcilers: they carry the Ready verdict (status, reason, generation); `Conditions.ChangesExactlyOnNewReport` shows that the Ready entry alone decides whether the list changes. Messages are not modelled there, so a patch that only changes a message is not seen.
- One clock reading per call of `setCondition`; the source reads the clock once per entry.
- Status fields that only copy what was observed: membership IDs and roles, client-secret prefix, name of the Secret and time of rotation, organization role and slug. For a reconcile that finds everything in place they are taken to be those of the last successful one.
- Which environments a new project comes with is a choice of the server, and a soft-deleted environment is taken not to be listed.
- The name defaults (`projectName`, `identityName`, `environmentName`, `environmentSlug`, `organizationName`): names and slugs in the model are those after defaulting, and the default settings of a new project besides its protection.
- HTTP, JSON and base64 decoding, URL, IP and CIDR parsing, and JWT claims; the creator's identity is a parameter.
- Whether a read of a project-scoped identity through another project's path is answered with the identity or with 404; the model answers with the identity, which the operator then rejects as misplaced.
- The lookups `FindProject`, `FindIdentity` and their siblings: a found entity is any that matches the slug or name asked for.
- White space beyond Latin-1 and the rounding of a floating-point lifetime to nanoseconds.
- The connection reconciler and the validation of connections: a client is available or not.
- Other finalizers, watches, work queues, requeue delays, leader election, deployment manifests and generated code.
- Edits of a spec between the read and the patch of the same reconcile, and two reconciles of one object at a time.
- Changing the name of the output Secret during the life of a Universal Auth resource.
