# Verification of the DrupalSite operator

A Dafny model of the DrupalSite operator and proofs about it. The operator keeps Drupal sites running on OpenShift: it
watches `DrupalSite` resources and, one reconcile at a time, completes their spec, records what it observes, maintains
the server deployment, moves a site from one release to another, rolls back when the new release does not come up, runs
schema updates, and cleans up when a site is deleted.

`dafny verify dfyconfig.toml` checks everything.

## How the model is built

- **A reconcile** starts from a `World` (what the API server holds about one site) and an `Oracle` (every answer it gets
  from outside: which calls fail, conflict or are refused, pod lists, command output). `Workflow` gives each section of
  the source as a function on a session; a section either stops the reconcile or lets it go on. The log of a session is
  the sequence of API writes and pod commands, so the world after a crash is the world after a prefix of the log.
- **The imperative side** is `Clusters` (the API server, one call at a time), `DrupalSites.DrupalSite` (the resource
  edited in memory), `DeploymentObjects` (the deployment edited in place) and `Controller`, whose `Reconcile` is proved
  to issue exactly the events `Workflow` says. The theorems about reconciles are stated on the functions.
- **Deployments** holds the transformer of the server deployment as a function; `DeploymentLaws` its laws.
- **Pods**, **Servers**, **Effects** and **Commands** say in terms of the objects alone what the functions below the theorems compute:
  which pod is chosen and what it says, what a deployment holds, and everything a reconcile can write or run.
- **Safety** and **Rollbacks** are the theorems about the writes of one reconcile with any faults; **Endings** about how
  a reconcile ends; **Runs** about runs with crashes and other writers; **Convergence**, **Patience** and **NewSites**
  about fault-free runs that come to rest, and **Faults** about rest after faults and crashes; **FailedUpdate** about
  updates that cannot succeed, and **FailedSchema** about schema updates that fail. `ReconcileFacts`, `EnsureFacts`,
  `PerformFacts`, `Calm` and `Housekeeping` say what each stage does and can do. `Findings` holds concrete worlds and
  reconciles: where the theorems about runs start, and why the others carry their conditions.
- **ProjectConfig** is the protocol of many sites over the one project configuration, with reads and writes as separate
  steps; **Routes** the route objects of a site; **RegistryTags**, **ReleaseTimes** and **SupportedVersions** the list
  of supported versions.

## Where the code differs from its documentation

Each of these is stated for all inputs as an exact condition, with a concrete input on which the documented behaviour
fails.

- `docs/site-update-workflow.md` says that `DBUpdatesFailed` stays until the version is restored. A recorded failure is
  lifted exactly when an accepted reconcile finds the spec at the failsafe release
  (`FailedSchema.FailureLiftedExactlyWhen`), so a schema failure survives the next accepted reconcile exactly when the
  update ran at another release than the failsafe one (`FailedSchema.RecordedFailureStaysExactlyWhen`). When the
  deployment can be read it runs at the failsafe release or with none, and the failure survives exactly when there is
  none (`FailedSchema.ReadableFailureStaysExactlyWhen`); then it is for ever (`Runs.FirstSchemaFailureIsForEver`).
  Otherwise that reconcile lifts it, and the schema update is executed again: `FailedSchema.FailedSchemaUpdateRepeats`, with
  `Findings.SomeSchemaUpdateRepeats`. After a failed read of the deployment it can also run away from an existing
  failsafe release, and its failure stays: `Findings.UnreadableFailureStays`, `Runs.DBUpdatesFailedLatches`.
- The same document says that a failed update removes the `updateInProgress` annotation. A failed schema update does not:
  `Endings.AnnotationGoesExactlyWhen`, with `Findings.SomeSchemaUpdateRepeats`.
- The comments of `updateDrupalVersion` promise that temporary failures are retried after a timeout. The exit for
  transient errors returns the error captured before, which is nil, so nothing is requeued
  (controllers/drupalsite_controller.go:246). `Endings.ComesBackExactlyWhen` says of every reconcile whether it requeues;
  `Endings.TemporaryFailuresAreLost` and `Findings.YoungPodIsLost` that these failures are not among the reasons.
- A failed read of the project config, and a failed list of backups, end in a nil dereference
  (controllers/drupalsite_controller.go:344 and 359): `Endings.PanicsExactlyWhen`, with `Findings.ReadsThatPanic`.
- The rollback is meant to go back to the release that ran before. Its target is of use exactly when a failsafe release
  other than the one of the spec is recorded (`Rollbacks.TargetUsefulExactlyWhen`). `Rollbacks.InVainFromStored` says
  which reconciles roll back without one: a failed read or a deployment being debugged is enough
  (`Findings.FailedReadRollsBackToNothing`, `Findings.DebuggedRollsBackToNothing`).
- The failsafe release is meant to be one known to work. `Safety.FailsafeVerifiedExactlyWhen` says of every move, the
  first one included, whether a pod of the release was asked before: not on a site that is not ready or not initialized
  (`Findings.DownSiteSkipsWorkflow`), and so not on a new site, whose first failsafe release is recorded whether or not
  its server has answered (`NewSites.NewSiteIsEquipped`).
- A tag such as `v9-RELEASEx` matches the tag pattern but not the timestamp pattern
  (`SupportedVersions.StrayTagBreaksOff`), and breaks the version controller off:
  `SupportedVersions.SupportedDrupalVersions.Reconcile` says exactly when.

## Model

| member | source | states |
|---|---|---|
| `Controller.DrupalSiteReconciler.Reconcile` | controllers/drupalsite_controller.go:199-515 | Whatever the API answers, the stored objects after a reconcile, the sequence of its writes and pod commands, and how it ends are those of the workflow functions; what those write, event by event, is in the `Effects` rows, and the other theorems are about them |
| `Controller.DrupalSiteReconciler.LiftFailures` | controllers/drupalsite_controller.go:316-324 | Failure conditions that hold are removed exactly when the failsafe release is the release of the spec; the flag tells whether one was |
| `Controller.DrupalSiteReconciler.ObserveStatus` | controllers/drupalsite_controller.go:289-334 | After all observations the in-memory status is the observed one, and the accumulated flag holds exactly when it differs from the recorded one |
| `Controller.DrupalSiteReconciler.CodeUpdateNeeded` | controllers/drupalsite_controller.go:701-712 | A code update is needed when the readable deployment carries another release, or the recorded failsafe release is not the current one |
| `Controller.DrupalSiteReconciler.DbUpdateNeeded` | controllers/drupalsite_controller.go:716-729 | A schema update is needed when the check command answers something; an error counts as no need and is reported |
| `Controller.DrupalSiteReconciler.DidVersionRollOutSucceed` | controllers/drupalsite_controller.go:681-697 | Over the pod list: broken exactly when the first pod of the release is failed, unknown, or pending for at least 600 seconds; waiting exactly when the list failed, has no such pod, or that pod is pending for less; done exactly when it is running or succeeded |
| `Controller.DrupalSiteReconciler.HandleTransientErr` | controllers/drupalsite_controller.go:237-250 | Writes the status and ends without an error: the transient error is lost, and nothing requeues |
| `Clusters.Cluster.Update` | controllers/reconciler_utils.go:142-153 | Persists spec and metadata and leaves the status; a conflict requeues, another error is returned; a deleted site without finalizer is gone |
| `Clusters.Cluster.UpdateStatus` | controllers/reconciler_utils.go:156-167 | Persists the status and nothing else; a conflict requeues, another error is returned |
| `Clusters.Cluster.UpsertSiteDeployment` | controllers/drupalsite_controller.go:744-758 | Create-or-update with the transformer: refused on a failed read, or when there is something to write and the write is not accepted; unchanged exactly when the transformer has nothing to change; a created object gets its creation time |
| `Clusters.Cluster.GetPodForVersion` | controllers/reconciler_utils.go:282-308 | None exactly when no pod of the list has the release; otherwise a pod of the list with the release and none with it before |
| `Clusters.Cluster.ExecToServerPod` | controllers/drupalsite_resources.go:88-136 | A command runs exactly when the first pod of the release is running, and answers only then |
| `Pods.ChosenPod` | controllers/reconciler_utils.go:282-308 | The pod chosen for a release is the first of the list that has it, and there is none exactly when no pod has it |
| `Pods.CommandRuns` | controllers/drupalsite_resources.go:88-136 | A command has a pod to run in exactly when the first pod of the release is running; its output counts only then |
| `Pods.RolloutFromPods` | controllers/drupalsite_controller.go:681-697 | The verdict on a rollout for every pod list, with the grace period of ten minutes written out |
| `DrupalSites.DrupalSite.SetCondition` | controllers/reconciler_utils.go:62-88 | Replaces the condition of the type and reports a change exactly when the status differs |
| `DrupalSites.PutChangesOne` | controllers/reconciler_utils.go:62-88 | Setting one condition changes that one and no other |
| `DrupalSites.DrupalSite.SetUpdateInProgress` | controllers/reconciler_utils.go:91-100 | Sets the annotation and reports whether it was not set |
| `DrupalSites.DrupalSite.UnsetUpdateInProgress` | controllers/reconciler_utils.go:103-113 | Removes the annotation and reports whether it was there |
| `DeploymentObjects.DeploymentObject.DeploymentForDrupalSite` | controllers/drupalsite_resources.go:903-1324 | The in-place transformation of the deployment, equal to the transformer function the laws and the `Servers` rows are about |
| `DeploymentObjects.DeploymentObject.ContainerExists` | controllers/drupalsite_resources.go:2253-2264 | A missing container is appended; an existing one is left alone |
| `DeploymentObjects.DeploymentObject.AddOwnerRef` | controllers/drupalsite_resources.go:2009-2017 | Afterwards an owner with the identifier is listed; the list stays, or grows by one at its end if there was none |
| `DeploymentObjects.DeploymentObject.UpdateDeploymentAnnotations` | controllers/drupalsite_resources.go:169-181 | The four hash annotations have the four hashes, each its own, and nothing else changes |
| `Servers.SixContainers` | controllers/drupalsite_resources.go:919-928 | Whatever the deployment was, afterwards it has all six containers |
| `Servers.ContainersStay` | controllers/drupalsite_resources.go:919-928 | A container that was there keeps its place and name, sidecars included |
| `Servers.ImagesFollowRelease` | controllers/drupalsite_resources.go:1184-1200 | A created deployment, one marked with another release or unmarked, or one of a site without failsafe release gets the image of the release in exactly the four containers that run site code; otherwise existing containers keep the image they have |
| `Servers.ReleasesDiffer` | controllers/drupalsite_resources.go:794-806 | Two releases never give the same image, so every upgrade and every rollback changes what runs |
| `Servers.AddedHasNoImage` | controllers/drupalsite_resources.go:1184-1200 | A site container added to a deployment that is already at its release has no image until the release changes |
| `Servers.SettingsAreEnforced` | controllers/drupalsite_resources.go:1201-1279 | Commands, resources, probes and the settings of the small containers are enforced on every pass that is not about a deployment being debugged |
| `Servers.CreatedContainers` | controllers/drupalsite_resources.go:1020-1176 | A created deployment has exactly the six containers, in order, with their initial ports, mounts and pull policy |
| `Servers.CreatedDeployment` | controllers/drupalsite_resources.go:931-1018 | A created deployment selects its pods by its labels and has the eight volumes of the site |
| `Servers.ExistingDeployment` | controllers/drupalsite_resources.go:903-1324 | An existing deployment keeps selector, pod labels, volumes, and the settings that are made on creation only |
| `Servers.AlwaysMarked` | controllers/drupalsite_resources.go:904-917 | Labels, owner and image policy are set on every pass, while debugging as well |
| `Servers.ReleaseMarked` | controllers/drupalsite_resources.go:1280-1321 | Unless it is being debugged the deployment says its release, its backup command, its replicas, whether its site is critical, and with extra configuration the image stream it follows |
| `Servers.OtherPodAnnotationsKept` | controllers/drupalsite_resources.go:1280-1288 | All other pod annotations of an existing deployment are kept, the configmap hashes among them |
| `Servers.DebuggedKeeps` | controllers/drupalsite_resources.go:1178-1182 | A deployment being debugged keeps its release, replicas, priority and every container it had |
| `Servers.HashesAreSet` | controllers/drupalsite_resources.go:169-181 | The hash writer sets each of the four annotations to its own hash and changes no other |
| `DeploymentLaws.ApplyIsIdempotent` | controllers/drupalsite_resources.go:903-1324 | A second application of the same site, release and configuration changes nothing, on an existing and on a just created deployment |
| `DeploymentLaws.ApplyMarksRelease` | controllers/drupalsite_resources.go:1280-1284 | The release annotation and replicas follow the release applied; a deployment being debugged keeps them |
| `DeploymentLaws.UnchangedMeansReleased` | controllers/drupalsite_controller.go:776-778 | An unchanged create-or-update means the release is already on the deployment |
| `DeploymentLaws.HashesCommuteWithApply` | controllers/drupalsite_resources.go:162-193 | The hash writer and the transformer commute on an existing deployment |
| `DeploymentLaws.WritersSettleTogether` | controllers/drupalsite_resources.go:162-193 | One pass of both writers reaches a deployment neither of them changes |
| `DeploymentLaws.UpgradeThenRollback` | controllers/drupalsite_resources.go:1184-1200 | From a settled deployment, applying another release and then the old one gives the same object back exactly when it is being debugged, the releases are equal, or its images were those of the old release |
| `DeploymentLaws.FailsafeKeepsSettled` | controllers/drupalsite_resources.go:1184-1200 | Recording a failsafe release does not unsettle a deployment, although images are then enforced less often |
| `Safety.LogCases` | controllers/drupalsite_controller.go:199-515 | Every event of every reconcile, with any faults, belongs to the stage that allows it, and the log is the history of the stored objects |
| `Effects.StatusWritesAreListed` | controllers/drupalsite_controller.go:199-515 | Whatever the API answers, every status a reconcile writes is the stored one with one aspect changed, and the list says which, with what value and why: what was observed, an error, the backups, the replicas, a failed resource, the state of an update with its reason, or the failsafe release with the image that runs it |
| `Effects.DeploymentWritesAreListed` | controllers/drupalsite_resources.go:575-596 | The deployment is written by the resources unless an update runs or has failed, by the hash writer, by an update that is due, or by its rollback to the failsafe release; all but the hash writer bring it to a release with the replicas the project may have |
| `Effects.HelperChangesAreListed` | controllers/drupalsite_resources.go:256-313 | Jobs are created for sites that are not initialized, each in the way of the spec; the schedule is created only for an initialized site that is primary or asks for backups, and deleted only from another one or with its site |
| `Effects.ConfigWritesAreListed` | controllers/drupalsite_controller.go:341-354 | The project config is written to claim an open place for the only site of a project, or by a site being deleted that gives its own place up |
| `Commands.CommandsAreListed` | controllers/drupalsite_resources.go:88-136 | Whatever the API answers, every pod command of a reconcile runs in the first pod of the release of the spec, which is running, gives the answer of that pod, and is issued for the reason listed; run-updb only after a backup that was accepted |
| `Effects.BlockedIsScaledDown` | controllers/drupalsite_resources.go:2125-2134 | In a project with both block annotations every replica count a reconcile writes is 0, on the status and on any deployment not being debugged |
| `Effects.UnblockedIsScaledUp` | controllers/drupalsite_resources.go:2135-2140 | In a project with neither, every replica count written is 3 for a critical site and 1 for any other |
| `Effects.HalfBlockedIsLeftAlone` | controllers/drupalsite_resources.go:2131-2132 | In a project with one of the two annotations a reconcile writes no deployment, creates no job or schedule, deletes no schedule of a live site, and keeps the recorded replicas |
| `Effects.DeletionInOrder` | controllers/drupalsite_controller.go:594-610 | The deletion path, event by event: the place in the config, then the schedule, then the finalizer, each only once those before have gone |
| `Effects.NothingToDo` | controllers/drupalsite_controller.go:205-271 | A site that cannot be read, is gone, or is paused is left alone |
| `Effects.FlaggedExactlyWhen` | controllers/drupalsite_controller.go:341-385 | Which failures are remembered until the end of a reconcile: a refused claim, an unreadable deployment, a failed schema check |
| `Effects.SpecErrorsAreShown` | controllers/drupalsite_controller.go:273-287 | A clone source that is missing or cannot be read, and a spec that is not valid, are recorded as the error they are, and nothing else is done |
| `Effects.ReplicasAreRecorded` | controllers/drupalsite_controller.go:424-437 | The expected replicas are written when they change or the override cannot be read; for a namespace blocked by halves or unreadable the status is written as it is, for a missing one nothing |
| `Effects.FailedResourceIsShown` | controllers/drupalsite_controller.go:439-453 | A resource or a configmap hash that could not be ensured leaves the site not ready, with the reconcile finished; only a conflict of the hash writer comes back without a word |
| `Effects.MissingDatabaseIsShown` | controllers/drupalsite_controller.go:454-463 | A database that is missing or cannot be read leaves the site not ready with its reason, and the reconcile comes back |
| `Effects.TemporaryFailuresAreWritten` | controllers/drupalsite_controller.go:767-823 | A refused update write, a pod not up yet and a cache clear that failed twice write the status as it is, after whatever was executed, and nothing else |
| `Safety.FailsafeVerifiedExactlyWhen` | controllers/drupalsite_controller.go:503-509 | Every move of the failsafe release, the first one included, is to the release of the spec; a running pod of that release accepted a silent cache clear before exactly when the site was ready, initialized and without a failed code update, and its deployment was read and found behind |
| `Safety.FailsafeIsVerified` | controllers/drupalsite_controller.go:503-509 | A failsafe release that is replaced was verified before exactly when the site was ready and initialized and its deployment readable |
| `Safety.ReleaseMovesThroughWorkflow` | controllers/drupalsite_resources.go:575-596 | On a ready and initialized site with readable deployment, a write that changes the release comes from the update (to the release of the spec) or its rollback (to the failsafe release), never from ensuring resources |
| `Safety.RollbackTargetIsSound` | controllers/drupalsite_controller.go:786-815 | Whenever a rollback starts on a readable deployment that is not being debugged, its target is non-empty and differs from the release of the spec |
| `Safety.SchemaUpdateIsOrdered` | controllers/drupalsite_controller.go:832-854 | run-updb executes only directly after an accepted backup, in a running pod of the release, with the annotation already persisted, and with no code rollout in the same reconcile |
| `Safety.SchemaUpdateAtRelease` | controllers/drupalsite_controller.go:491-501 | run-updb executes only with the deployment at the release of the spec and the failsafe release empty or current, when the deployment could be read |
| `Findings.DownSiteSkipsWorkflow` | controllers/drupalsite_controller.go:503-509 | Concrete reconcile of a site that is not ready: ensuring resources moves its release and the failsafe release follows, with no pod asked |
| `Findings.FailedReadRollsBackToNothing` | controllers/drupalsite_resources.go:577-583 | Concrete reconcile in which one failed read of the deployment leads to a rollback to the empty release |
| `Findings.DebuggedRollsBackToNothing` | controllers/drupalsite_resources.go:1184-1200 | Concrete reconcile of a deployment being debugged, which looks settled at any release, with a rollback to the empty release |
| `Rollbacks.RollsBackExactlyWhen` | controllers/drupalsite_controller.go:786-815 | A reconcile rolls back exactly when its code update finds nothing to write and the rollout has failed, by its pod or by the output of the cache clear |
| `Rollbacks.RollbackTarget` | controllers/drupalsite_controller.go:858-870 | With any faults, a rollback aims at the recorded failsafe release, and starts only with the release of the spec recorded as current |
| `Rollbacks.TargetUsefulExactlyWhen` | controllers/drupalsite_controller.go:701-712 | The target of a rollback is non-empty and other than the release of the spec exactly when the stored failsafe release is, which is the second reason for a code update; otherwise the first reason alone started it |
| `Rollbacks.InVainExactlyWhen` | controllers/drupalsite_controller.go:701-712 | A reconcile rolls back to a release that is of no use exactly when another release is deployed, the recorded one is empty or current, nothing is written and the rollout fails |
| `Rollbacks.InVainFromStored` | controllers/drupalsite_resources.go:575-596 | From stored data and answers: such a rollback happens exactly when, besides, the ordinary update slipped through after a failed read or the deployment is left alone by the transformer because it is being debugged |
| `Endings.PanicsExactlyWhen` | controllers/drupalsite_controller.go:341-365 | A reconcile panics exactly when a live site with a complete spec and a status in step meets a failed config read, or a failed backup list that no failed site list comes before |
| `Endings.ComesBackExactlyWhen` | controllers/drupalsite_controller.go:199-515 | A reconcile, of any world with any answers, ends requeued or with an error exactly under a condition on what is stored and answered; no transient error is part of it |
| `Endings.TemporaryFailuresAreLost` | controllers/drupalsite_controller.go:767-823 | A refused deployment write, a pod not up yet or not listed, a refused rollback, and a cache clear that failed twice once the status is written, end an update as if it had succeeded: nothing requeues |
| `Endings.AnnotationGoesExactlyWhen` | controllers/drupalsite_controller.go:386-418 | The update annotation is removed exactly by an accepted reconcile that assesses the site and finds no update needed or the code update failed; a failed schema update is no reason |
| `Findings.ReadsThatPanic` | controllers/drupalsite_controller.go:341-365 | Two concrete reconciles that panic, one on the config read and one on the backup list |
| `Findings.YoungPodIsLost` | controllers/drupalsite_controller.go:688-693 | Concrete update that waits for a young pod: the reconcile ends finished, with the world as it was, so nothing brings it back |
| `Runs.StepKeepsLatches` | controllers/drupalsite_controller.go:307-324 | One step of a run, a reconcile cut after any event or a change by others, keeps Initialized, and keeps CodeUpdateFailed, DBUpdatesFailed and the failsafe release unless the spec is at that release |
| `Runs.CodeUpdateFailedLatches` | controllers/drupalsite_controller.go:317-321 | On every run, with crashes, CodeUpdateFailed and the failsafe release stay until a reconcile starts with the spec at the failsafe release |
| `Runs.DBUpdatesFailedLatches` | controllers/drupalsite_controller.go:316-324 | On every run, with crashes, DBUpdatesFailed and the failsafe release stay until a reconcile starts with the spec at the failsafe release |
| `Runs.FirstSchemaFailureIsForEver` | controllers/drupalsite_controller.go:503-509 | A schema failure on a site without a failsafe release stays on every run: no spec asks for the empty release, and no failsafe release is recorded while the failure holds |
| `Runs.LatchFreezesServer` | controllers/drupalsite_resources.go:581-583 | While the failure is latched and the deployment readable, the operator writes nothing to it but configmap hashes |
| `Runs.LatchedReconcileKeepsServer` | controllers/drupalsite_resources.go:581-583 | A latched reconcile, cut anywhere, leaves release, replicas and containers as it found them, so a refused rollback is never made up for |
| `Runs.InitializedStays` | controllers/drupalsite_controller.go:307-314 | On every run Initialized never returns to false |
| `Runs.JobsFillNewSites` | controllers/drupalsite_resources.go:256-271 | A job is created only for a site that is not initialized, in the way its spec asks for, and only if missing |
| `Runs.InitializedOnce` | controllers/drupalsite_resources.go:256-271 | No reconcile after Initialized was persisted creates an install job, clone job or easystart task |
| `Runs.OneWayToInitialize` | controllers/drupalsite_resources.go:256-271 | With a fixed way to initialize, at most one of the three kinds of job ever exists |
| `Runs.OnlyCleanupRemovesFinalizer` | controllers/drupalsite_controller.go:594-610 | The finalizer is removed only by the deletion path |
| `Runs.FinalizerGoesLast` | controllers/drupalsite_controller.go:594-610 | When the removal of the finalizer is persisted the site is gone, its schedule is gone, and the config does not name it if it could be read |
| `Calm.ToAssessAsked` | controllers/drupalsite_controller.go:273-365 | Without faults a site, initialized or not found to be filled, is completed, synchronized and listed, one write per reconcile, before its update is looked at |
| `Calm.EnsurePath` | controllers/drupalsite_controller.go:422-463 | Without faults ensuring stops only to record the expected replicas, and leaves the hashed deployment, updated unless it stands back |
| `Housekeeping.Housekeeps` | controllers/drupalsite_controller.go:273-365 | An untidy site has one chore fewer after a reconcile, and its update is left alone |
| `Convergence.StepLowersRank` | controllers/drupalsite_controller.go:289-509 | Every fault-free reconcile of a calm site lowers its rank, or finds it at zero and leaves the world as it is |
| `Convergence.Converges` | controllers/drupalsite_controller.go:289-509 | After as many fault-free reconciles as the rank of the first world, failsafe, current and deployed release equal the release of the spec, the annotation is gone, replicas, schedule and configmap hashes are as the project, the site and its configuration ask, and reconciles write nothing |
| `Convergence.ConvergesWithin26` | controllers/drupalsite_controller.go:289-509 | The bound is 26 for every calm start: an initialized, served site with a deployment, blocked or not, whose spec names a release and has nothing to take from a clone source, whatever its status, project and configuration |
| `Convergence.CalmRunExists` | controllers/drupalsite_controller.go:289-509 | From every world, with the lists of the environment there, calm runs of every length exist, so the two theorems above are about something |
| `Patience.StepPatiently` | controllers/drupalsite_controller.go:681-697 | A fault-free reconcile in which the pod of the new release is missing, young or not listed does not raise the rank; any other lowers it |
| `Patience.ConvergesPatiently` | controllers/drupalsite_controller.go:681-697 | However many reconciles wait for the new pod, the update comes to rest: the waiting ones not counted, 26 are enough |
| `NewSites.StepLowersNewRank` | controllers/drupalsite_controller.go:199-515 | A fault-free reconcile of a site that is not both filled and served, with or without a deployment, lowers its rank, or finds it at zero and changes nothing |
| `NewSites.NewSiteIsEquipped` | controllers/drupalsite_resources.go:199-322 | Fourteen fault-free reconciles in which the server neither comes nor goes give such a site a deployment settled at the release of the spec and the job that fills it; that release is current and already failsafe, and the next reconcile changes nothing |
| `NewSites.BlockedSiteRests` | controllers/drupalsite_resources.go:2125-2134 | In a blocked project a site without server, new or scaled down, rests after fourteen fault-free reconciles with its deployment and its recorded replicas at 0 |
| `NewSites.BecomesCalm` | controllers/drupalsite_controller.go:289-339 | The reconcile that finds a new site filled while its server is up makes it an initialized one, where convergence starts |
| `NewSites.NewSiteConverges` | controllers/drupalsite_controller.go:199-515 | A new site, filled and served in any order, with a server that may come and go, is at rest at the latest 26 reconciles after it is first both |
| `NewSites.NewRunExists` | controllers/drupalsite_controller.go:199-515 | From every world there are quiet runs of new sites of every length |
| `Faults.SiteWritesComplete` | controllers/drupalsite_controller.go:623-671 | Whatever fails, a write of a site that is not being deleted carries its completed spec and its own metadata, but for the update annotation |
| `Faults.SiteWritesAreListed` | controllers/drupalsite_controller.go:623-671 | Field by field: finalizer set, password and release filled in where missing, configuration taken from a clone source where missing, everything else but the update annotation as it was read |
| `Faults.IncompleteIsCompleted` | controllers/drupalsite_controller.go:623-671 | A site that lacks the finalizer, a password or a release gets them by one write, which is all its reconcile does |
| `Faults.DeploymentWritesFit` | controllers/drupalsite_resources.go:903-1324 | Whatever fails, every deployment written exists on the server afterwards and is not put into debugging |
| `Faults.StaysAlive` | controllers/drupalsite_controller.go:199-515 | Any part of any reconcile, with any faults, leaves a live site alive, at the same release and with its name |
| `Faults.CalmExactlyWhenForgiven` | controllers/drupalsite_controller.go:199-515 | After any number of reconciles with faults, each cut anywhere, a live site is where convergence starts exactly when no failed update is on record away from the failsafe release |
| `Faults.ConvergesAfterFaults` | controllers/drupalsite_controller.go:199-515 | However many reconciles failed or were cut short, once they go through, and unless a failed update stays on record, the site is at rest within 26 of them |
| `Faults.CalmExactlyWhenReleased` | controllers/drupalsite_controller.go:623-671 | One fault-free reconcile completes any spec that lacks something, with what a clone source adds; convergence starts there exactly when the spec names a release or the operator has a default one |
| `Faults.NoReleaseNoRest` | controllers/drupalsite_controller.go:623-671 | Without either, every fault-free reconcile writes the spec again and does nothing else |
| `Findings.UnnamedIsUnspecified` | controllers/drupalsite_controller.go:623-671 | A concrete site that names no release, of an operator without a default one |
| `Findings.AppliedIsNew` | controllers/drupalsite_controller.go:623-671 | A site just applied, with no finalizer, status or deployment, is a start of the theorem about new sites, with a rank of at least ten |
| `Findings.AppliedMayBeBlocked` | controllers/drupalsite_resources.go:2125-2134 | The same site in a blocked project is a start of the theorem about blocked sites, with a rank of at least ten |
| `Findings.UpgradeIsCalmAndCanFail` | docs/site-update-workflow.md:5-14 | A concrete site about to be upgraded meets the conditions of both the theorem about success and the one about failure, with a rank above zero |
| `FailedUpdate.StepLowersStuckRank` | controllers/drupalsite_controller.go:767-823 | Every fault-free reconcile of an update that cannot succeed lowers its rank, or finds it at zero and does nothing |
| `FailedUpdate.FailedUpdateSettles` | controllers/drupalsite_controller.go:786-815 | Whenever the first pod of the release is failed, unknown or pending for ten minutes, or a running one complains about the cache clear, the site settles within 26 reconciles: failure recorded, deployment back at an unchanged failsafe release, no annotation, pending updates unknown, no event at all |
| `FailedUpdate.BrokenInputsExist` | controllers/drupalsite_controller.go:681-697 | From every world each of the three kinds of broken pod, and the complaint, is possible without any fault, so the theorem above is about something |
| `FailedUpdate.RecoversAtFailsafe` | docs/site-update-workflow.md:22-24 | When the spec asks for the failsafe release again, fault-free reconciles settle at it without a failure condition |
| `FailedSchema.FailureLiftedExactlyWhen` | controllers/drupalsite_controller.go:316-324 | For any world, faults and either failure: it is taken off the record exactly by a reconcile of a live site with a complete spec at the failsafe release, whose write is accepted |
| `FailedSchema.FailureKeptExactlyWhen` | controllers/drupalsite_controller.go:316-324 | A fault-free reconcile of a live site keeps a recorded failure exactly when the failsafe release is not the release of the spec |
| `FailedSchema.FailureRecordedExactlyWhen` | controllers/drupalsite_controller.go:832-854 | A schema failure goes on record exactly when a live site with everything in step needs a schema update, its backup or its run-updb fails, in a pod or for want of one, and the status write is accepted |
| `FailedSchema.RecordedFailureStaysExactlyWhen` | controllers/drupalsite_controller.go:316-324 | A schema failure just recorded, by a failed backup or run-updb and whatever could be read, survives the next accepted reconcile exactly when the failsafe release is not the release of the spec |
| `FailedSchema.ReadableFailureStaysExactlyWhen` | controllers/drupalsite_controller.go:491-509 | When the deployment could be read by the reconcile that recorded the failure, that is exactly when the site has no failsafe release |
| `FailedSchema.FailedSchemaUpdateRepeats` | controllers/drupalsite_controller.go:316-324 | On a site at its failsafe release with run-updb failing, every second reconcile starts from the same world and executes it again, because the recorded failure is lifted in between |
| `FailedSchema.FailingRunExists` | controllers/drupalsite_controller.go:832-854 | Given one way to fail there are failing runs of every length |
| `Findings.SomeSchemaUpdateRepeats` | controllers/drupalsite_controller.go:832-854 | A concrete site whose failing schema update is executed again at every second reconcile, for as long as one likes, with the failure on record and the update annotation still set in between |
| `Findings.UnreadableFailureStays` | controllers/drupalsite_controller.go:701-712 | A concrete reconcile with a failed read of the deployment: the schema update runs before the release is verified, and its failure, recorded away from the failsafe release, is kept by every next reconcile |
| `Findings.SomeSchemaFailureStays` | controllers/drupalsite_controller.go:503-509 | A concrete site without a failsafe release whose schema update fails and whose failure stays on every run |
| `ProjectConfig.PrimaryWritesKeepToOwnPlace` | controllers/drupalsite_controller.go:911-934 | Over every interleaving of reconciles and user edits, with reads of any age, an accepted write goes from empty to the writer's own name, or from it to empty after the site was marked for deletion |
| `ProjectConfig.ChoiceStands` | controllers/reconciler_utils.go:129-139 | A primary site, once named, stays named until a user changes it or that site is deleted |
| `ProjectConfig.NothingDangles` | controllers/drupalsite_controller.go:594-610 | With current reads and only the operator writing the config, the primary site name is always empty or names an existing site |
| `ProjectConfig.OldReadDangles` | controllers/drupalsite_controller.go:220-234 | A failed or outdated read of the config during deletion leaves a dangling primary site |
| `Routes.RouteTable.EnsureRoutes` | controllers/drupalsite_resources.go:399-413 | Create-or-update of one route per URL, in order, stopping at the first error; afterwards the route of every entry leads to the service of the site at port 8080, with edge termination, redirect, timeout, the whitelist if the site has one, an owner and the labels, and everything else on it is kept |
| `Routes.ReadyRoute` | controllers/drupalsite_resources.go:1405-1441 | What a route is set up with, and that a whitelist it has stays when the site has none |
| `Routes.RouteTable.EnsureNoRoute` | controllers/drupalsite_resources.go:696-711 | Deletes the route whose name the host hashes to, if there is one |
| `Routes.RouteTable.EnsureNoExtraRoutes` | controllers/drupalsite_resources.go:599-642 | Removes exactly the names computed from labelled routes whose host is not requested, or a part of them when a call fails |
| `Routes.RouteTable.EnsureIngress` | controllers/drupalsite_resources.go:275-300 | The ingress section: a full pass without faults, after which every route of an entry leads to the site, and none is there before it is initialized; with any faults no name outside the site's is touched |
| `Routes.NameTellsSite` | controllers/drupalsite_resources.go:402-403 | Two routes share a name exactly when site and truncated hash agree, because the suffix has fixed length |
| `Routes.PassLeavesEntries` | controllers/drupalsite_resources.go:599-642 | After a pass the labelled routes are exactly one per hash name of an entry, each named after its host and serving an entry |
| `Routes.RoutesMatchSpec` | controllers/drupalsite_resources.go:599-642 | The labelled routes match the distinct entries of the URL list one to one exactly when the truncated hash tells the entries apart |
| `Routes.PassKeepsOtherSites` | controllers/drupalsite_resources.go:696-711 | No route of another site is changed, added or removed |
| `RegistryTags.ParseRegistryTags` | controllers/supporteddrupalversions_controller.go:179-199 | Groups the matching tags by version, keeping every release in the order of the tags |
| `RegistryTags.SplitIsGreedyMatch` | controllers/supporteddrupalversions_controller.go:181-188 | The captured pair is the match of the pattern with the longest version name |
| `RegistryTags.SplitRejoins` | controllers/supporteddrupalversions_controller.go:181-188 | A tag is split exactly when the pattern matches it at all, and the two parts rejoin to the tag |
| `RegistryTags.SplitInvertsReleaseId` | controllers/drupalsite_resources.go:787-789 | The parser undoes the release identifier exactly for one-line names starting with v and releases starting with RELEASE that do not contain the separator again |
| `RegistryTags.ReleasesRejoin` | controllers/supporteddrupalversions_controller.go:179-199 | Every release of a group rejoins with its name to one of the tags, and that tag splits into the two |
| `RegistryTags.TagsAreConserved` | controllers/supporteddrupalversions_controller.go:179-199 | A matching tag occurs among the tags as often as its release in its group |
| `ReleaseTimes.ReadOfFormat` | controllers/supporteddrupalversions_controller.go:42-42 | Formatting a time and reading it back gives the time |
| `ReleaseTimes.FormatOfRead` | controllers/supporteddrupalversions_controller.go:42-42 | Reading a canonical timestamp and formatting it gives the text |
| `ReleaseTimes.FormatOrder` | controllers/supporteddrupalversions_controller.go:212-214 | Formatted times are ordered lexicographically as their instants are in time |
| `ReleaseTimes.EarlierIsEarlier` | controllers/supporteddrupalversions_controller.go:212-214 | The order of civil times field by field is the order of their instants, leap years included |
| `ReleaseTimes.FormatDigits` | controllers/supporteddrupalversions_controller.go:42-42 | The layout digit by digit: where each field of the time stands in the text and what separates them |
| `ReleaseTimes.DaysFollow` | controllers/supporteddrupalversions_controller.go:212-214 | Which days exist, and that days that follow each other are 86400 seconds apart across the ends of months and years |
| `ReleaseTimes.YearsAreGregorian` | controllers/supporteddrupalversions_controller.go:212-214 | The days before a year in closed form, with the leap days of the Gregorian calendar |
| `SupportedVersions.SortLatestFirst` | controllers/supporteddrupalversions_controller.go:212-214 | Sorts the times in place, the latest first, keeping each as often as it was there |
| `SupportedVersions.GetLatestRelease` | controllers/supporteddrupalversions_controller.go:202-219 | One latest release per version; breaks off exactly when some release has no timestamp part |
| `SupportedVersions.LatestIsGreatest` | controllers/supporteddrupalversions_controller.go:202-219 | Of canonical releases the answer is a member of the group, greatest in time and in text |
| `SupportedVersions.LatestIsMember` | controllers/supporteddrupalversions_controller.go:202-219 | The answer is a member of its group exactly when some latest release is written as the layout says |
| `SupportedVersions.LatestIgnoresOrder` | controllers/supporteddrupalversions_controller.go:202-219 | The answer depends on which releases are in the group, not on their order |
| `SupportedVersions.SupportedDrupalVersions.Find` | controllers/supporteddrupalversions_controller.go:222-229 | Whether a text is in a list |
| `SupportedVersions.SupportedDrupalVersions.DrupalVersionsEqual` | controllers/supporteddrupalversions_controller.go:145-166 | True exactly when the list is a permutation of the entries of the map, with nothing assumed about repeated names |
| `SupportedVersions.AgreesMeansLists` | controllers/supporteddrupalversions_controller.go:145-166 | Equal lengths, every key listed and no listed key with another release amount to a permutation, by counting |
| `SupportedVersions.SupportedDrupalVersions.UpdateVersions` | controllers/supporteddrupalversions_controller.go:129-141 | The list holds each entry that is not blacklisted exactly once, and nothing else |
| `SupportedVersions.UpdateSettles` | controllers/supporteddrupalversions_controller.go:109-113 | After an update the comparison holds exactly when nothing in the registry is blacklisted |
| `SupportedVersions.StrayTagBreaksOff` | controllers/supporteddrupalversions_controller.go:179-219 | The tag v9-RELEASEx is split as a tag of version v9 and has no timestamp part, so no list of tags that holds it is all timestamped |
| `SupportedVersions.SupportedDrupalVersions.Reconcile` | controllers/supporteddrupalversions_controller.go:67-126 | From tags to the stored list: breaks off exactly on a matching tag without timestamp part, otherwise stores the latest release of every version not blacklisted once; a list that needs nothing is not written, and it stays when both writes are refused |

## Left out

- Controller.DrupalSiteReconciler.Reconcile: of the resources a reconcile ensures, the deployment, the three jobs and the backup schedule are modelled; every other one is a single failure flag.
- DrupalSites.DrupalSite.SetCondition: the message of a condition is folded into its reason, which differs whenever the message would.
- DeploymentObjects.DeploymentObject.DeploymentForDrupalSite: environment variables, node selectors, probe details, volume sources and image pull settings beyond what is set on creation or on every pass are left out.
- Routes.RouteTable.EnsureIngress: the OIDC return URIs kept beside the routes are left out; the source removes only one of the two variants of a return URI.
- Safety.RollbackTargetIsSound: gives a sufficient condition; the exact ones are `Rollbacks.TargetUsefulExactlyWhen` and `Rollbacks.InVainFromStored`.
- FailedSchema.FailedSchemaUpdateRepeats: is about sites at their failsafe release; `FailedSchema.RecordedFailureStaysExactlyWhen` says that the failure is kept on the others.
- NewSites.NewSiteConverges: starts without an update annotation; a site whose server goes down in the middle of an update is not followed until it answers again.
- NewSites.BlockedSiteRests: starts without an update annotation and without a failed update on record; what a reconcile writes on any other blocked site is in `Effects.BlockedIsScaledDown`.
- Convergence.ConvergesWithin26: leaves out a site with a complete spec whose clone source has extra configuration that the spec lacks; specs that lack a release, a password or the finalizer are in `Faults.CalmExactlyWhenReleased`.
- Safety.FailsafeIsVerified: is about replaced failsafe releases; `Safety.FailsafeVerifiedExactlyWhen` decides the first one as well.
- The sections of the reconciler that `Reconcile` calls are each proved against the function of the same section in `Workflow`; they have no rows of their own, except those that say something besides.
- Workflow.CheckRollout: a pod list that cannot be read and a list without a pod of the release give the same answer, because the source treats both as temporary.
- SupportedVersions.GetLatestRelease: what the time library makes of texts that stray from the layout (a one-digit hour, a fraction of a second, a failed parse) is any valid time, the same for the same text.
- Convergence.Converges: is about whole reconciles one after the other in a constant environment; crashes and faults before them are in `Faults`, other writers in `Runs`.
- ProjectConfig.NothingDangles: needs current and successful reads, and users who leave the configuration and the finalizers alone; `OldReadDangles` shows that the reads matter.
- Routes.RoutesMatchSpec: starts from labelled routes that are named after their hosts, which every pass keeps.
- Concurrent edits of a site, its status or its deployment during a reconcile appear only as writes that conflict, not as changed reads.
- The whole spec and metadata are written by an update; edits made since the read make it conflict, and are not merged.
- A deployment whose pod template has no annotations at all, on which the hash writer would panic.
- Disk sizes, their string comparison, and the persistent volume claim.
- Resource quantities, their override, and the table they come from: one opaque text per container.
- Jobs, services, config maps, secrets, image streams, build configs, role bindings and the text of schedules: only whether the call failed; secrets are written on every reconcile and are not counted as writes.
- MD5 and the order in which a config map is printed before hashing: the hashes are inputs, and the route hash is any function of fixed length.
- The webhook address, random passwords and random cron times: inputs.
- Pod command execution, registry access, watches, the work queue and its retries.
- The resolution of image streams by OpenShift and other external changes of the deployment, except as steps of the environment.
- Generated code, the custom resource definitions, the Helm chart and the container images.
