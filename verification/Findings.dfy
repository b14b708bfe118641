// Concrete worlds: where the theorems about runs begin, and reconciles that show why the safety theorems carry their
// conditions.
module Findings {
  import opened Kube
  import opened DrupalSites
  import opened Deployments
  import opened DeploymentLaws
  import opened Workflow
  import opened ReconcileFacts
  import opened PerformFacts
  import opened Safety
  import opened Calm
  import opened Housekeeping
  import opened Convergence
  import opened NewSites
  import opened Faults
  import opened FailedUpdate
  import opened FailedSchema
  import opened Endings
  import opened Patience
  import opened Runs

  const OLD := "v9-R1"
  const NEW := "v9-R2"

  /** A spec that asks for the new release. */
  const SPEC := Spec("v9", "R2", "", Standard, "", "", "", "secret")

  function SiteWith(ready: Truth, updateInProgress: Option<string>, failsafe: string): Site {
    Site("site", "project", "uid", Meta(true, false, false, updateInProgress), SPEC,
         Status(Conditions(Present(ready, ""), Present(True, ""), Absent, Absent, Absent, Absent),
                NEW, failsafe, "", [], Some(1), "", false))
  }

  /** A deployment at the old release. */
  const SERVER := BLANK.(created := true, podAnnotations := map[Release := OLD])

  /** No project config, no backups, a database, and a deployment at the old release. */
  function WorldWith(site: Site, readyReplicas: nat): World {
    World(false, site, None, Some(SERVER), readyReplicas, true, {}, false)
  }

  function RunningOn(w: World, d: Deployment): World {
    w.(deploy := Some(d))
  }

  const RESOURCES := Config(Flags("builder", "exporter", "webdav", false), 1, "", "", "", "", "", "")
  const NO_POD := Exec(Some([]), None)
  const BROKEN_POD := Some([Pod(NEW, Failed, 0)])

  /** Every call succeeds, except possibly the read of the deployment before the ordinary update. */
  function AnswersWith(ensureReadFails: bool): Oracle {
    Oracle(
      siteReadFails := false, configReadFails := false, clone := SourceMissing, randomPassword := "secret",
      defaultRelease := "", specValid := true, readyReadFails := false, dbod0Fails := false,
      installedReadFails := false, checkInstalled := NO_POD, cloneJobDone := false, easystartDone := false,
      webhookURL := "", sitesInProject := Some(1), configWrite := Accepted, backups := Some([]),
      codeReadFails := false, checkUpdb := NO_POD, namespace := NamespaceFound(false, false),
      overrideReadFails := false, resources := RESOURCES, otherResourcesFail := false, dbod1Fails := false,
      ensureReadFails := ensureReadFails, ensureCall := SUCCEEDS, dbod2Fails := false, jobCall := SUCCEEDS,
      scheduleCall := SUCCEEDS, configmaps := ConfigmapMissing, hashCall := SUCCEEDS, dbod3Fails := false,
      updateCall := SUCCEEDS, rolloutPods := BROKEN_POD, cache1 := NO_POD, cache2 := NO_POD,
      rollbackCall := SUCCEEDS, backup := NO_POD, runUpdb := NO_POD, siteWrite := Accepted)
  }

  lemma NewIsAsked(s: Site)
    requires s.spec == SPEC
    ensures ReleaseId(s.spec) == NEW
  {
  }

  /** The sections up to the assessment find nothing to write. */
  lemma NothingToObserve(ready: Truth, mark: Option<string>, failsafe: string, d: Deployment, replicas: nat,
      fails: bool)
    requires (ready == True && replicas != 0) || (ready == False && replicas == 0)
    requires failsafe != NEW
    ensures
      var w := RunningOn(WorldWith(SiteWith(ready, mark, failsafe), replicas), d);
      ToAssess(w, AnswersWith(fails)) == Go(Begin(w))
  {
    var w, o := RunningOn(WorldWith(SiteWith(ready, mark, failsafe), replicas), d), AnswersWith(fails);
    var s := Begin(w);
    assert InitSpec(s, o) == Go(s);
    assert NewStatus(s, o) == w.site.status by { NewIsAsked(w.site); }
    assert SyncStatus(s, o) == Go(s);
    assert Proclaim(s, o) == Go(s);
    assert SyncBackups(s, o) == Go(s);
  }

  // ------------------------------------------------------------------ an upgrade about to begin

  const UPGRADE := WorldWith(SiteWith(True, None, OLD), 1)

  /** An upgrade about to begin is where both the theorem about success and the one about failure start. */
  lemma UpgradeIsCalmAndCanFail(env: Oracle)
    requires env == AnswersWith(false).(configmaps := ConfigmapsFound(Hashes("", "", "", "")))
    ensures Offers(env) && CalmWorld(env, UPGRADE) && StuckWorld(env, UPGRADE) && Rank(env, UPGRADE, false) >= 6
  {
    hide Chores, Roughness, ReleaseId;
    NewIsAsked(UPGRADE.site);
    assert SERVER.ReleaseOf() == OLD;
  }

  // ------------------------------------------------------------------ a site just applied

  const NO_CONDITIONS := Conditions(Absent, Absent, Absent, Absent, Absent, Absent)

  /** A site as a user applies it: no finalizer, no password, no status, and nothing else there but its database. */
  const APPLIED := World(
    false,
    Site("site", "project", "uid", Meta(false, false, false, None), SPEC.(webDAVPassword := ""),
         Status(NO_CONDITIONS, "", "", "", [], None, "", false)),
    Some(""), None, 0, true, {}, false)

  /** A site just applied is where the theorem about new sites starts, with almost everything left to do. */
  lemma AppliedIsNew()
    ensures Offers(CalmAnswers()) && NewWorld(CalmAnswers(), APPLIED) && NewRank(CalmAnswers(), APPLIED) >= 10
  {
    hide ReleaseId, Apply, SetHashes, Listed, Scaled;
    assert APPLIED.site.status.current != ReleaseId(APPLIED.site.spec) by { ReleaseIdNonempty(APPLIED.site.spec); }
  }

  const BLOCKED_PROJECT := CalmAnswers().(namespace := NamespaceFound(true, true))

  /** A site just applied in a blocked project is where the theorem about blocked sites starts. */
  lemma AppliedMayBeBlocked()
    ensures Offers(BLOCKED_PROJECT) && Young(BLOCKED_PROJECT, APPLIED) && !Up(APPLIED)
    ensures NewRank(BLOCKED_PROJECT, APPLIED) >= 10
  {
    hide ReleaseId, Apply, SetHashes, Listed, Scaled;
    assert APPLIED.site.status.current != ReleaseId(APPLIED.site.spec) by { ReleaseIdNonempty(APPLIED.site.spec); }
  }

  /** A live site that names no release, of an operator that knows no default one. */
  const UNNAMED := UPGRADE.(site := UPGRADE.site.(spec := SPEC.(releaseSpec := "")))

  lemma UnnamedIsUnspecified()
    ensures Unspecified(CalmAnswers(), UNNAMED) && FaultFree(CalmAnswers()) && SameInputs(CalmAnswers(), CalmAnswers())
    ensures UNNAMED.site.spec.releaseSpec == "" == CalmAnswers().defaultRelease
  {
  }

  // ------------------------------------------------------------------ reconciles that should come back, and do not

  /** A failed read of the project config, and a failed list of backups, each end a reconcile in a panic. */
  lemma ReadsThatPanic()
    ensures Reconciled(UPGRADE, AnswersWith(false).(configReadFails := true)).outcome == Panicked
    ensures Reconciled(UPGRADE, AnswersWith(false).(backups := None)).outcome == Panicked
  {
    hide Reconciled, ReleaseId;
    NewIsAsked(UPGRADE.site);
    PanicsExactlyWhen(UPGRADE, AnswersWith(false).(configReadFails := true));
    PanicsExactlyWhen(UPGRADE, AnswersWith(false).(backups := None));
  }

  /** An update on its way: the new release is deployed and not verified. */
  function RollingWorld(): World {
    var site := SiteWith(True, IN_PROGRESS, OLD);
    World(false, site, None, Some(SettledServer(site)), 1, true, {}, false)
  }

  /** The pod of the new release has just been created. */
  function YoungPod(): Oracle {
    Smooth(CalmAnswers(), NEW, false).(rolloutPods := Some([Pod(NEW, Pending, 0)]))
  }

  lemma YoungPodIsSmooth()
    ensures FaultFree(YoungPod()) && SameInputs(CalmAnswers(), YoungPod())
    ensures Pods.WaitingPods(YoungPod().rolloutPods, NEW)
  {
    Pods.RolloutFromPods(YoungPod().rolloutPods, NEW);
  }

  lemma RollingIsSteady()
    ensures SteadyWorld(CalmAnswers(), RollingWorld())
  {
    hide Apply, SetHashes, ReleaseId, SettledServer, AnswersWith;
    ServerIsSettled(RollingWorld().site);
    assert FixedSpec(CalmAnswers(), SPEC) by { SpecIsFixed(); }
  }

  lemma SpecIsFixed()
    ensures FixedSpec(CalmAnswers(), SPEC)
  {
    hide AnswersWith;
  }

  lemma RollingIsBehind()
    ensures Behind(RollingWorld()) && Deployed(RollingWorld())
  {
    hide ReleaseId, SettledServer;
    NewIsAsked(RollingWorld().site);
    ServerIsSettled(RollingWorld().site);
  }

  lemma RollingIsTidy()
    ensures Tidy(CalmAnswers(), RollingWorld()) && Scaled(CalmAnswers(), RollingWorld())
  {
    hide ReleaseId, SettledServer;
    NewIsAsked(RollingWorld().site);
  }

  lemma RollingIsPerformable()
    ensures Performable(CalmAnswers(), RollingWorld(), false) && Behind(RollingWorld()) && Deployed(RollingWorld())
  {
    hide SteadyWorld, Behind, Deployed, Tidy, Scaled, CalmAnswers, SettledServer;
    RollingIsSteady();
    RollingIsBehind();
    RollingIsTidy();
  }

  lemma RollingIsSettled()
    ensures
      var w, env := RollingWorld(), CalmAnswers();
      Shaped(env, w) && Claimed(env, w) && Scheduled(w) && Hashed(env, w)
  {
    hide Apply, SetHashes, ReleaseId, FixedConfig, EnvHashes, SettledServer;
    NewIsAsked(RollingWorld().site);
    ServerIsSettled(RollingWorld().site);
    EnvironmentIsFixed(RollingWorld().site.spec);
  }

  /**
   * A pod that is still young is to be waited for, but nobody is told to: the reconcile ends as if all was well, with
   * the world as it was.
   */
  lemma YoungPodIsLost()
    ensures
      var f := Reconciled(RollingWorld(), YoungPod());
      f.outcome == Finished && f.session.world == RollingWorld()
  {
    hide Reconciled, Performable, Shaped, Claimed, Scheduled, Hashed, CalmAnswers, YoungPod, ReleaseId, Provided,
      SettledServer;
    var w, env, o := RollingWorld(), CalmAnswers(), YoungPod();
    RollingIsPerformable();
    RollingIsSettled();
    YoungPodIsSmooth();
    NewIsAsked(w.site);
    WaitsForPod(env, w, o, false);
    RollingStays();
  }

  lemma RollingStays()
    ensures Waited(CalmAnswers(), RollingWorld()) == RollingWorld()
  {
    hide SetHashes, Apply, ReleaseId, SettledServer;
    RollingIsPerformable();
    RollingIsSettled();
    ClaimedFacts(CalmAnswers(), RollingWorld());
  }

  // ------------------------------------------------------------------ a schema update that fails

  const NO_HASHES := Hashes("", "", "", "")

  function CalmAnswers(): Oracle {
    AnswersWith(false).(configmaps := ConfigmapsFound(NO_HASHES))
  }

  /** The site at the new release, with schema updates announced. */
  function PendingSite(failsafe: string): Site {
    WithCondition(SiteWith(True, IN_PROGRESS, failsafe), DBUpdatesPending, Present(True, ""))
  }

  /** Its server, with nothing left to write to it. */
  function SettledServer(site: Site): Deployment {
    SetHashes(Apply(SERVER, site, NEW, RESOURCES), NO_HASHES)
  }

  function PendingWorld(failsafe: string): World {
    World(false, PendingSite(failsafe), None, Some(SettledServer(PendingSite(failsafe))), 1, true, {}, false)
  }

  /** run-updb fails, and everything else works. */
  function UpdbFailing(): Oracle {
    Smooth(CalmAnswers(), NEW, true).(runUpdb := Exec(Some([Pod(NEW, Running, 0)]), None))
  }

  lemma ServerIsSettled(site: Site)
    requires site.spec == SPEC
    ensures
      var d := SettledServer(site);
      && d.created && !d.Debugging() && d.ReleaseOf() == NEW && SetHashes(d, NO_HASHES) == d
      && Apply(d, site, NEW, RESOURCES) == d
  {
    hide Apply, SetHashes;
    var d := Apply(SERVER, site, NEW, RESOURCES);
    ApplyMarksRelease(SERVER, site, NEW, RESOURCES);
    assert Stored(d) == d by { StoredAgain(d); }
    WritersSettleTogether(SERVER, site, NEW, RESOURCES, NO_HASHES);
    HashedKeeps(d, NO_HASHES);
  }

  lemma EnvironmentIsFixed(spec: Spec)
    requires spec == SPEC
    ensures
      && FixedConfig(CalmAnswers(), spec) == RESOURCES && EnvHashes(CalmAnswers()) == NO_HASHES && Offers(CalmAnswers())
  {
  }

  lemma PendingIsCalm(failsafe: string)
    requires failsafe == NEW || failsafe == ""
    ensures Pressing(CalmAnswers(), PendingWorld(failsafe))
    ensures failsafe == NEW ==> Due(CalmAnswers(), PendingWorld(failsafe))
  {
    hide Apply, SetHashes, ReleaseId, FixedConfig, EnvHashes, SettledServer;
    var w := PendingWorld(failsafe);
    NewIsAsked(w.site);
    ServerIsSettled(w.site);
    EnvironmentIsFixed(w.site.spec);
  }

  lemma UpdbFailingFails(failsafe: string)
    requires failsafe == NEW || failsafe == ""
    ensures UpdbFails(CalmAnswers(), PendingWorld(failsafe), UpdbFailing())
  {
    hide ReleaseId, FaultFree, SameInputs, PodsUp, SettledServer;
    NewIsAsked(PendingWorld(failsafe).site);
    UpdbFailingIsSmooth();
    UpdbFailingHasPods();
  }

  lemma UpdbFailingIsSmooth()
    ensures FaultFree(UpdbFailing()) && SameInputs(CalmAnswers(), UpdbFailing())
  {
  }

  lemma UpdbFailingHasPods()
    ensures PodsUp(UpdbFailing(), NEW)
  {
    FirstPodRuns(NEW);
  }

  /** There is a site whose failing schema update is tried again at every second reconcile, for as long as one likes. */
  lemma SomeSchemaUpdateRepeats(i: nat)
    ensures exists ws: seq<World>, os: seq<Oracle> ::
      && IsFailingRun(CalmAnswers(), PendingWorld(NEW), ws, os) && |os| == 2 * i + 1
      && ws[2 * i] == PendingWorld(NEW) && TriedUpdb(Log(ws[2 * i], os[2 * i]))
      && ws[2 * i + 1] == Recorded(PendingWorld(NEW))
      && ws[2 * i + 1].site.Is(DBUpdatesFailed) && ws[2 * i + 1].site.meta.updateInProgress == IN_PROGRESS
  {
    hide Log, UpdbFails, Due, PendingWorld, UpdbFailing, Smooth, TriedUpdb;
    var env, w := CalmAnswers(), PendingWorld(NEW);
    PendingIsCalm(NEW);
    UpdbFailingFails(NEW);
    FailingRunExists(env, w, UpdbFailing(), 2 * i + 1);
    var ws: seq<World>, os: seq<Oracle> :| IsFailingRun(env, w, ws, os) && |os| == 2 * i + 1 && ws[0] == w;
    FailedSchemaUpdateRepeats(env, w, ws, os, i);
    RecordedIsMarked();
  }

  /** The recorded failure does not take the annotation away. */
  lemma RecordedIsMarked()
    ensures
      var site := Recorded(PendingWorld(NEW)).site;
      site.Is(DBUpdatesFailed) && site.meta.updateInProgress == IN_PROGRESS
  {
    hide SettledServer;
  }

  /** And there is one without a failsafe release, whose failure stays on record on every run that follows. */
  lemma SomeSchemaFailureStays(ws: seq<World>, steps: seq<Step>, i: nat)
    requires IsRun(ws, steps) && i < |ws|
    requires ws[0] == Reconciled(PendingWorld(""), UpdbFailing()).session.world
    ensures TriedUpdb(Log(PendingWorld(""), UpdbFailing()))
    ensures ws[i].site.Is(DBUpdatesFailed) && ws[i].site.status.failsafe == ""
  {
    hide Log, UpdbFails, Pressing, UpdbFailing, Smooth, TriedUpdb, Reconciled, IsRun, SettledServer;
    PendingIsCalm("");
    UpdbFailingFails("");
    RecordsFailure(CalmAnswers(), PendingWorld(""), UpdbFailing());
    FirstSchemaFailureIsForEver(ws, steps, i);
  }

  /** The same with a deployment that cannot be read when the code is checked. */
  function UnreadableFailing(): Oracle {
    UpdbFailing().(codeReadFails := true)
  }

  lemma UnreadableInStep()
    ensures Live(PendingWorld(OLD), UnreadableFailing()) && AllInStep(PendingWorld(OLD), UnreadableFailing())
    ensures NeedsSchema(PendingWorld(OLD), UnreadableFailing())
    ensures SchemaCommandFails(UnreadableFailing(), NEW) && UnreadableFailing().siteWrite == Accepted
  {
    hide SettledServer, ReleaseId;
    NewIsAsked(PendingWorld(OLD).site);
    FirstPodRuns(NEW);
  }

  /** Whatever is claimed on the way, the resources are as they should be. */
  lemma UnreadableIsEquipped(s: Session)
    requires Decided(PendingWorld(OLD), UnreadableFailing(), s)
    ensures Equips(s, UnreadableFailing())
  {
    hide SetHashes, Apply, ReleaseId, SettledServer, Coherent, Assessed, InStep;
    ServerIsSettled(PendingSite(OLD));
  }

  lemma UnreadableIsDecided()
    ensures Decided(PendingWorld(OLD), UnreadableFailing(), Assessment(PendingWorld(OLD), UnreadableFailing()))
  {
    hide ToEnsure, AllInStep, Live, Decided, NeedsSchema, SchemaCommandFails, UnreadableFailing, PendingWorld;
    UnreadableInStep();
    LaterSessions(PendingWorld(OLD), UnreadableFailing());
    ToEnsureFacts(PendingWorld(OLD), UnreadableFailing());
  }

  /**
   * A failed read lets a schema update run before the release is verified. Its failure is recorded away from the
   * failsafe release, and every reconcile that follows keeps it, although there is a failsafe release.
   */
  lemma UnreadableFailureStays(later: Oracle)
    ensures
      var next := Reconciled(PendingWorld(OLD), UnreadableFailing()).session.world;
      && next.site.Is(DBUpdatesFailed) && next.site.status.failsafe == OLD
      && Reconciled(next, later).session.world.site.Is(DBUpdatesFailed)
  {
    hide Reconciled, ReleaseId, AllInStep, Equips, NeedsSchema, SchemaCommandFails, Live, SettledServer, Assessment,
      UnreadableFailing, Decided;
    var w, o := PendingWorld(OLD), UnreadableFailing();
    NewIsAsked(w.site);
    UnreadableInStep();
    UnreadableIsDecided();
    UnreadableIsEquipped(Assessment(w, o));
    FailureRecordedExactlyWhen(w, o);
    RecordingLeaves(w, o);
    FailureLiftedExactlyWhen(Reconciled(w, o).session.world, later, DBUpdatesFailed);
  }

  // ------------------------------------------------------------------ a site that is not ready

  const DOWN := WorldWith(SiteWith(False, None, OLD), 0)

  /** Nothing is assessed on a site that is not ready. */
  lemma DownIsNotAssessed()
    ensures ToEnsure(DOWN, AnswersWith(false)) == Go(Begin(DOWN))
  {
    hide ToAssess, ExecOutput, CodeReadable, CodeBehind;
    NothingToObserve(False, None, OLD, SERVER, 0, false);
  }

  /** The server of the site, brought to the new release by the ordinary update. */
  function Moved(site: Site): Deployment {
    Apply(SERVER, site, NEW, RESOURCES)
  }

  lemma MovedIsNew(site: Site)
    ensures Moved(site).ReleaseOf() == NEW && Moved(site) != SERVER && Moved(site).created && !Moved(site).Debugging()
  {
    hide Apply;
    ApplyMarksRelease(SERVER, site, NEW, RESOURCES);
    assert SERVER.ReleaseOf() == OLD;
  }

  lemma ConfigIsFixed(s: Session, fails: bool)
    requires s.site.spec == SPEC
    ensures Replicas(s, AnswersWith(fails)) == Some(1) && ConfigOf(s, AnswersWith(fails)) == RESOURCES
  {
  }

  /** Ensuring moves the server to the new release in one write. */
  lemma DownIsMoved()
    ensures
      var d := Moved(DOWN.site);
      var s := Emit(Begin(DOWN), DeploymentWritten(ByResources, d));
      Ensure(Begin(DOWN), AnswersWith(false)) == Go(s) && s.log == [DeploymentWritten(ByResources, d)]
  {
    hide Apply, ConfigOf, Replicas, ReleaseId;
    var s, o := Begin(DOWN), AnswersWith(false);
    ConfigIsFixed(s, false);
    NewIsAsked(DOWN.site);
    MovedIsNew(DOWN.site);
    assert SyncReplicas(s, o) == Go(s);
    assert EnsureUpsert(s, o) == Updated(Moved(DOWN.site));
    var t := Emit(s, DeploymentWritten(ByResources, Moved(DOWN.site)));
    assert EnsureResources(s, o) == Go(t);
    assert EnsureHashes(t, o) == Go(t);
    assert CheckDatabase(t, o) == Go(t);
  }

  /**
   * A site that is not ready goes round the workflow: one reconcile moves its server to another release as an ordinary
   * resource and records that release as the failsafe one, without a pod of it ever having been asked anything.
   */
  lemma DownSiteSkipsWorkflow()
    ensures
      var log := Log(DOWN, AnswersWith(false));
      && |log| == 2
      && log[0].DeploymentWritten? && log[0].author == ByResources
      && log[0].deployment.ReleaseOf() == NEW != DOWN.deploy.value.ReleaseOf()
      && MovesFailsafe(DOWN, log[1]) && log[1].status.failsafe == NEW
      && forall e :: e in log ==> !Verifies(e, NEW)
  {
    hide ToEnsure, Ensure, Apply, ReleaseId, SiteImage;
    var o := AnswersWith(false);
    DownIsNotAssessed();
    DownIsMoved();
    MovedIsNew(DOWN.site);
    NewIsAsked(DOWN.site);
    var s := Emit(Begin(DOWN), DeploymentWritten(ByResources, Moved(DOWN.site)));
    assert UpdateVersion(s, o) == Go(s);
    assert UpdateSchema(s, o) == Go(s);
    assert AdvanceFailsafe(s, o).session.log == s.log + [StatusWritten(Advanced(s.site, RESOURCES.flags).status)];
  }

  // ------------------------------------------------------------------ a deployment that cannot be read

  const FIRST := WorldWith(SiteWith(True, IN_PROGRESS, ""), 1)

  /** The new release is needed, and no failsafe release is recorded yet. */
  lemma FirstIsAssessed()
    ensures ToEnsure(FIRST, AnswersWith(true)) == Go(Begin(FIRST).(codeNeeded := true))
  {
    hide ToAssess, ExecOutput;
    var s, o := Begin(FIRST), AnswersWith(true);
    NothingToObserve(True, IN_PROGRESS, "", SERVER, 1, true);
    NewIsAsked(FIRST.site);
    assert SERVER.ReleaseOf() == OLD;
    assert ComputeNeeds(s, o) == s.(codeNeeded := true);
  }

  /** The failed read makes the ordinary update go ahead in the middle of a code update. */
  lemma FirstIsMoved()
    ensures
      var d := Moved(FIRST.site);
      var s := Emit(Begin(FIRST).(codeNeeded := true), DeploymentWritten(ByResources, d));
      Ensure(Begin(FIRST).(codeNeeded := true), AnswersWith(true)) == Go(s)
  {
    hide Apply, ConfigOf, Replicas, ReleaseId;
    var s, o := Begin(FIRST).(codeNeeded := true), AnswersWith(true);
    ConfigIsFixed(s, true);
    NewIsAsked(FIRST.site);
    MovedIsNew(FIRST.site);
    assert SyncReplicas(s, o) == Go(s);
    assert EnsureUpsert(s, o) == Updated(Moved(FIRST.site));
    var t := Emit(s, DeploymentWritten(ByResources, Moved(FIRST.site)));
    assert EnsureResources(s, o) == Go(t);
    assert EnsureHashes(t, o) == Go(t);
    assert CheckDatabase(t, o) == Go(t);
  }

  /**
   * One failed read of the deployment is enough for a rollback to no release at all: the ordinary update does not
   * stand back, the code update finds nothing left to write, its pod has failed, and there is nowhere to go back to.
   */
  lemma FailedReadRollsBackToNothing()
    ensures RollbackStarted("") in Log(FIRST, AnswersWith(true))
  {
    hide ToEnsure, Ensure, Apply, ReleaseId, SiteImage, UpsertRelease, RollbackRefused, WriteStatus, Transient;
    var o := AnswersWith(true);
    FirstIsAssessed();
    FirstIsMoved();
    NewIsAsked(FIRST.site);
    var s := Emit(Begin(FIRST).(codeNeeded := true), DeploymentWritten(ByResources, Moved(FIRST.site)));
    MovedIsSettled(s, o);
    assert CheckRollout(o.rolloutPods, NEW) == Broken;
    var t := s.(site := FailCode(s.site, ERR_DEPLOYMENT_UPDATE_FAILED));
    RollbackStays(t, o);
  }

  lemma MovedIsSettled(s: Session, o: Oracle)
    requires s.world.deploy == Some(Moved(FIRST.site)) && s.site == FIRST.site && o == AnswersWith(true)
    ensures UpsertRelease(s, ReleaseId(s.site.spec), ConfigOf(s, o), o.updateCall) == Unchanged
  {
    hide Apply, ConfigOf, ReleaseId;
    NewIsAsked(FIRST.site);
    ConfigIsFixed(s, true);
    MovedIsNew(FIRST.site);
    var d := Moved(FIRST.site);
    ApplyIsIdempotent(SERVER, FIRST.site, NEW, RESOURCES);
    assert Stored(d) == d by { StoredAgain(d); }
  }

  lemma StoredAgain(d: Deployment)
    requires d.created
    ensures Stored(d) == d
  {
  }

  /** Whatever the rollback and the writes after it come to, its start is on record. */
  lemma RollbackStays(t: Session, o: Oracle)
    ensures
      var u := RollBack(t, o);
      && RollbackStarted(t.site.status.failsafe) in u.log
      && RollbackStarted(t.site.status.failsafe) in WriteStatus(u, o).session.log
      && RollbackStarted(t.site.status.failsafe) in Transient(u, o).session.log
  {
    hide UpsertRelease;
    var e := RollbackStarted(t.site.status.failsafe);
    var v := Emit(t, e);
    assert v.log[|t.log|] == e;
    var u := RollBack(t, o);
    assert u.log[|t.log|] == e;
    assert WriteStatus(u, o).session.log[|t.log|] == e;
  }

  // ------------------------------------------------------------------ a deployment that is being debugged

  /** The server with the debug annotation, and everything the operator keeps even then. */
  function DebuggedServer(): Deployment {
    Populate(Adopt(SERVER.(annotations := map[Debug := "true"]), FIRST.site), FIRST.site)
  }

  function DebuggedWorld(): World {
    RunningOn(FIRST, DebuggedServer())
  }

  lemma DebuggedIsLeftAlone()
    ensures
      var d := DebuggedServer();
      && d.created && d.ReleaseOf() == OLD && d.Debugging()
      && forall site: Site, release: string, config: Config :: site == FIRST.site ==>
        Apply(d, site, release, config) == d
  {
    hide Enforce, EnsureRoles, SiteLabels, AddOwner;
    var a := Adopt(SERVER.(annotations := map[Debug := "true"]), FIRST.site);
    var d := DebuggedServer();
    AdoptTwice(SERVER.(annotations := map[Debug := "true"]), FIRST.site, d);
    PopulateTwice(a, FIRST.site, d);
  }

  lemma DebuggedIsEquipped()
    ensures ToEnsure(DebuggedWorld(), AnswersWith(false)) == Go(Begin(DebuggedWorld()).(codeNeeded := true))
    ensures Ensure(Begin(DebuggedWorld()).(codeNeeded := true), AnswersWith(false))
      == Go(Begin(DebuggedWorld()).(codeNeeded := true))
  {
    hide ToAssess, ExecOutput, DebuggedServer, ConfigOf, Replicas, ReleaseId, Apply;
    var w, o := DebuggedWorld(), AnswersWith(false);
    var s := Begin(w).(codeNeeded := true);
    NothingToObserve(True, IN_PROGRESS, "", DebuggedServer(), 1, false);
    NewIsAsked(w.site);
    DebuggedIsLeftAlone();
    ConfigIsFixed(s, false);
    assert ComputeNeeds(Begin(w), o) == s;
    assert SyncReplicas(s, o) == Go(s);
    assert EnsureUpsert(s, o) == Unchanged;
    assert EnsureResources(s, o) == Go(s);
    assert EnsureHashes(s, o) == Go(s);
    assert CheckDatabase(s, o) == Go(s);
  }

  /** A deployment that is being debugged looks settled at any release, and its update is rolled back to no release. */
  lemma DebuggedRollsBackToNothing()
    ensures RollbackStarted("") in Log(DebuggedWorld(), AnswersWith(false))
  {
    hide ToEnsure, Ensure, Apply, ReleaseId, SiteImage, RollbackRefused, WriteStatus, Transient, DebuggedServer,
      ConfigOf, RollBack;
    var o := AnswersWith(false);
    DebuggedIsEquipped();
    DebuggedIsLeftAlone();
    NewIsAsked(FIRST.site);
    var s := Begin(DebuggedWorld()).(codeNeeded := true);
    assert UpsertRelease(s, NEW, ConfigOf(s, o), o.updateCall) == Unchanged;
    assert CheckRollout(o.rolloutPods, NEW) == Broken;
    RollbackStays(s.(site := FailCode(s.site, ERR_DEPLOYMENT_UPDATE_FAILED)), o);
  }
}
