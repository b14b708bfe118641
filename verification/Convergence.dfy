// Convergence: without faults, repeated reconciles of a live site come to rest within a bounded number of steps.
module Convergence {
  import opened Kube
  import opened DrupalSites
  import opened Deployments
  import opened DeploymentLaws
  import opened Workflow
  import opened Calm
  import opened Housekeeping
  import opened Safety

  // ------------------------------------------------------------------ calm worlds

  /** A live site on which no code update has failed, or whose failure is about to be lifted. */
  ghost predicate SteadyWorld(env: Oracle, w: World) {
    Alive(env, w) && w.site.name != "" && (Restored(w) || !w.site.Is(CodeUpdateFailed))
  }

  /** No failure is recorded at all, except one that is about to be lifted. */
  ghost predicate CalmWorld(env: Oracle, w: World) {
    SteadyWorld(env, w) && (Restored(w) || !w.site.Is(DBUpdatesFailed))
  }

  /** A step that leaves the release, the failsafe release and the absence of failures as they are. */
  ghost predicate StaysSteady(env: Oracle, w: World, next: World) {
    && SteadyWorld(env, next) && (CalmWorld(env, w) ==> CalmWorld(env, next))
    && ReleaseId(next.site.spec) == ReleaseId(w.site.spec) && next.site.status.failsafe == w.site.status.failsafe
  }

  /** The deployment runs the release of the spec. */
  ghost predicate Deployed(w: World) {
    w.deploy.Some? && w.deploy.value.ReleaseOf() == ReleaseId(w.site.spec)
  }

  /** A reconcile without faults, with running pods for the deployed release. */
  ghost predicate CalmInputs(env: Oracle, w: World, o: Oracle, pending: bool) {
    FaultFree(o) && SameInputs(env, o) && Answers(o, pending) && (Deployed(w) ==> PodsUp(o, ReleaseId(w.site.spec)))
  }

  /** A reconcile without faults; commands and pods matter only once the code update is over. */
  ghost predicate SteadyInputs(env: Oracle, w: World, o: Oracle, pending: bool) {
    FaultFree(o) && SameInputs(env, o) && (Behind(w) || (PodsUp(o, ReleaseId(w.site.spec)) && Checks(o, pending)))
  }

  /** run-updb was executed and accepted. */
  ghost predicate RanUpdb(log: seq<Event>) {
    exists i :: 0 <= i < |log| && log[i].Executed? && log[i].command == RunUpdb && log[i].output.Some?
  }

  /** Pending schema updates come with a release that is newly deployed, and go with run-updb. */
  ghost predicate PendingFollows(w: World, log: seq<Event>, next: World, before: bool, after: bool) {
    Deployed(w) == Deployed(next) ==> after == (before && !RanUpdb(log))
  }

  /** The code update is not finished: another release is deployed, or this one is not verified. */
  ghost predicate Behind(w: World) {
    !Deployed(w) || (w.site.status.failsafe != "" && w.site.status.failsafe != ReleaseId(w.site.spec))
  }

  // ------------------------------------------------------------------ the rank

  /** How far the update is from its end. */
  ghost function Distance(w: World, pending: bool): nat {
    Weight(!Deployed(w), 6) + Weight(w.site.status.failsafe != ReleaseId(w.site.spec), 3) + Weight(pending, 3)
    + Weight(!Marked(w, Behind(w) || pending), 1) + Weight(!Announced(w, !Behind(w) && pending), 1)
  }

  /** What the two deployment writers have left to do. */
  ghost function Roughness(env: Oracle, w: World): nat {
    Weight(!Shaped(env, w), 1) + Weight(!Hashed(env, w), 1)
  }

  ghost function Rank(env: Oracle, w: World, pending: bool): (r: nat)
    ensures r <= 26
  {
    Chores(env, w) + Distance(w, pending) + Roughness(env, w)
  }

  /** No part of the rank grows, and one of them shrinks. */
  ghost predicate Progress(env: Oracle, w: World, before: bool, next: World, after: bool) {
    && Chores(env, next) <= Chores(env, w)
    && Distance(next, after) <= Distance(w, before)
    && Roughness(env, next) <= Roughness(env, w)
    && Rank(env, next, after) < Rank(env, w, before)
  }

  // ------------------------------------------------------------------ frames

  /** Nothing the deployment writers look at differs. */
  lemma RoughnessFrame(env: Oracle, w: World, next: World)
    requires
      && next.deploy == w.deploy && SameShape(w.site, next.site) && ReleaseId(next.site.spec) == ReleaseId(w.site.spec)
    requires next.site.status.failsafe == w.site.status.failsafe
    ensures Roughness(env, next) == Roughness(env, w)
  {
    hide Apply, SetHashes, ReleaseId;
    if w.deploy.Some? {
      ApplyReadsLittle(SetHashes(w.deploy.value, EnvHashes(env)), w.site, next.site, ReleaseId(w.site.spec),
        FixedConfig(env, w.site.spec));
    }
  }

  lemma DistanceShrinks(w: World, next: World, pending: bool)
    requires Deployed(next) == Deployed(w) && ReleaseId(next.site.spec) == ReleaseId(w.site.spec)
    requires next.site.status.failsafe == w.site.status.failsafe
    requires Marked(w, Behind(w) || pending) ==> Marked(next, Behind(w) || pending)
    requires Announced(w, !Behind(w) && pending) ==> Announced(next, !Behind(w) && pending)
    ensures Distance(next, pending) <= Distance(w, pending)
    ensures Marked(next, Behind(w) || pending) && !Marked(w, Behind(w) || pending) ==>
      Distance(next, pending) < Distance(w, pending)
    ensures Announced(next, !Behind(w) && pending) && !Announced(w, !Behind(w) && pending) ==>
      Distance(next, pending) < Distance(w, pending)
  {
    hide ReleaseId, Deployed;
  }

  lemma DistanceFrame(w: World, next: World, pending: bool)
    requires Deployed(next) == Deployed(w) && ReleaseId(next.site.spec) == ReleaseId(w.site.spec)
    requires next.site.status.failsafe == w.site.status.failsafe
    requires next.site.meta.updateInProgress == w.site.meta.updateInProgress
    requires next.site.status.conditions.dbUpdatesPending == w.site.status.conditions.dbUpdatesPending
    ensures Distance(next, pending) == Distance(w, pending)
  {
    hide ReleaseId, Deployed;
  }

  // ------------------------------------------------------------------ the steps of the assessment

  /** What the first stages have established once they let a reconcile go on. */
  ghost predicate Assessable(env: Oracle, w: World) {
    SteadyWorld(env, w) && Tidy(env, w)
  }

  lemma ClaimedUpdatable(env: Oracle, w: World)
    requires SteadyWorld(env, w) && Synced(env, w)
    ensures
      var c := ClaimedSession(env, w);
      && Updatable(c.site) && c.site.Is(DBUpdatesFailed) == w.site.Is(DBUpdatesFailed)
      && Rel(c) == ReleaseId(w.site.spec)
      && c.world.deploy == w.deploy && w.deploy.Some? && CodeBehind(c.world, c.site) == Behind(w)
      && !c.codeNeeded && !c.dbNeeded && !c.flagged
      && !w.site.Is(CodeUpdateFailed) && (CalmWorld(env, w) ==> !w.site.Is(DBUpdatesFailed))
  {
    hide ReleaseId, ClaimedSession, FixedSpec;
    ClaimedFacts(env, w);
  }

  function Mark(needed: bool): Option<string> {
    if needed then IN_PROGRESS else None
  }

  lemma SteadyIsManaged(env: Oracle, w: World, o: Oracle)
    requires SteadyWorld(env, w)
    ensures Managed(env, w) && NothingNew(w, o) && w.site.Is(Initialized)
  {
    AliveIsManaged(env, w, o);
  }

  lemma ToEnsurePath(env: Oracle, w: World, o: Oracle, pending: bool)
    requires Assessable(env, w) && SteadyInputs(env, w, o, pending)
    ensures
      var c := ClaimedSession(env, w);
      var t := ComputeNeeds(c, o);
      var code := Behind(w);
      var db := !code && pending;
      && Needs(c, t, code, db)
      && (!Marked(w, code || db) ==>
        ToEnsure(w, o) == WriteSite(t.(site := WithUpdateInProgress(t.site, Mark(code || db))), o))
      && (Marked(w, code || db) && !Announced(w, db) ==>
            ToEnsure(w, o) == WriteStatus(t.(site := WithCondition(t.site, DBUpdatesPending, PendingCondition(db))), o))
      && (Marked(w, code || db) && Announced(w, db) ==> ToEnsure(w, o) == Go(t))
  {
    hide ToAssess, SpecIncomplete, Alive, Synced, ClaimedSession, Listed, ComputeNeeds, Assess, WriteSite, WriteStatus,
      PodsUp, Checks, SameInputs, ReleaseId, CodeBehind, Updatable, FaultFree, Needs;
    assert Managed(env, w) && w.site.Is(Initialized) by { SteadyIsManaged(env, w, o); }
    ToAssessPath(env, w, o);
    ClaimedUpdatable(env, w);
    ClaimedFacts(env, w);
    AssessPath(ClaimedSession(env, w), o, pending);
  }

  /** The world after the annotation was written; the claim is kept, what it says about the site is not. */
  function Remarked(env: Oracle, w: World, needed: bool): World {
    ClaimedSession(env, w).world.(site := w.site.(meta := w.site.meta.(updateInProgress := Mark(needed))))
  }

  lemma Marks(env: Oracle, w: World, o: Oracle, pending: bool)
    requires Assessable(env, w) && SteadyInputs(env, w, o, pending) && !Marked(w, Behind(w) || pending)
    ensures Reconciled(w, o).session.world == Remarked(env, w, Behind(w) || pending)
  {
    hide ToEnsure, SpecIncomplete, Synced, ClaimedSession, Listed, ComputeNeeds, PodsUp, Checks, SameInputs, ReleaseId,
      FixedSpec, Marked, Announced, Behind;
    ToEnsurePath(env, w, o, pending);
    ClaimedFacts(env, w);
  }

  lemma StepMarks(env: Oracle, w: World, pending: bool)
    requires Assessable(env, w) && !Marked(w, Behind(w) || pending)
    ensures
      var next := Remarked(env, w, Behind(w) || pending);
      StaysSteady(env, w, next) && Deployed(next) == Deployed(w) && Progress(env, w, pending, next, pending)
  {
    hide SpecIncomplete, FixedSpec, Roughness, ReleaseId, Synced, ClaimedSession, Chores, WantsSchedule, Scaled, Listed,
      Distance, Behind;
    ClaimedFacts(env, w);
    var next := Remarked(env, w, Behind(w) || pending);
    DistanceShrinks(w, next, pending);
    SyncedUnfailed(env, w);
    ChoresAfterClaim(env, w, next);
    RoughnessFrame(env, w, next);
  }

  /** The world after the pending-updates condition was written. */
  function Reannounced(env: Oracle, w: World, db: bool): World {
    var s := ClaimedSession(env, w);
    s.world.(site := s.world.site.(status := WithCondition(s.site, DBUpdatesPending, PendingCondition(db)).status))
  }

  lemma Announces(env: Oracle, w: World, o: Oracle, pending: bool)
    requires Assessable(env, w) && SteadyInputs(env, w, o, pending)
    requires Marked(w, Behind(w) || pending) && !Announced(w, !Behind(w) && pending)
    ensures Reconciled(w, o).session.world == Reannounced(env, w, !Behind(w) && pending)
  {
    hide ToEnsure, SpecIncomplete, Synced, ClaimedSession, Listed, ComputeNeeds, PodsUp, Checks, SameInputs, ReleaseId,
      FixedSpec, Marked, Announced, Behind;
    ToEnsurePath(env, w, o, pending);
    ClaimedFacts(env, w);
  }

  lemma StepAnnounces(env: Oracle, w: World, pending: bool)
    requires Assessable(env, w) && !Announced(w, !Behind(w) && pending)
    ensures
      var next := Reannounced(env, w, !Behind(w) && pending);
      StaysSteady(env, w, next) && Deployed(next) == Deployed(w) && Progress(env, w, pending, next, pending)
  {
    hide SpecIncomplete, FixedSpec, Roughness, ReleaseId, Synced, ClaimedSession, Chores, WantsSchedule, Scaled, Listed,
      Distance, Behind;
    ClaimedFacts(env, w);
    var next := Reannounced(env, w, !Behind(w) && pending);
    DistanceShrinks(w, next, pending);
    SyncedUnfailed(env, w);
    ChoresAfterClaim(env, w, next);
    RoughnessFrame(env, w, next);
  }

  // ------------------------------------------------------------------ the steps of the resources

  /** What the assessment has established once it lets a reconcile go on. */
  ghost predicate Equippable(env: Oracle, w: World, pending: bool) {
    Assessable(env, w) && Marked(w, Behind(w) || pending) && Announced(w, !Behind(w) && pending)
  }

  /** The world after the expected replicas were recorded. */
  function Rescaled(env: Oracle, w: World): World {
    var s := ClaimedSession(env, w);
    s.world.(site := s.world.site.(status := s.site.status.(expectedReplicas := Some(WantedReplicas(env,
      w.site.spec)))))
  }

  lemma Scales(env: Oracle, w: World, o: Oracle, pending: bool)
    requires Equippable(env, w, pending) && SteadyInputs(env, w, o, pending) && !Scaled(env, w)
    ensures Reconciled(w, o).session.world == Rescaled(env, w)
  {
    hide ToEnsure, SpecIncomplete, Synced, ClaimedSession, Listed, ComputeNeeds, PodsUp, Checks, SameInputs, ReleaseId,
      FixedSpec, Marked, Announced, Behind, Ensure;
    ToEnsurePath(env, w, o, pending);
    ClaimedFacts(env, w);
    EnsurePath(env, ComputeNeeds(ClaimedSession(env, w), o), o);
  }

  lemma StepScales(env: Oracle, w: World, pending: bool)
    requires Equippable(env, w, pending) && !Scaled(env, w)
    ensures StaysSteady(env, w, Rescaled(env, w)) && Deployed(Rescaled(env, w)) == Deployed(w)
    ensures Progress(env, w, pending, Rescaled(env, w), pending)
  {
    hide SpecIncomplete, FixedSpec, Roughness, Distance, ReleaseId, Synced, ClaimedSession, Chores, WantsSchedule;
    ClaimedFacts(env, w);
    var next := Rescaled(env, w);
    SyncedUnfailed(env, w);
    ChoresAfterClaim(env, w, next);
    RoughnessFrame(env, w, next);
    DistanceFrame(w, next, pending);
  }

  // ------------------------------------------------------------------ the steps of the update

  /** What the recorded replicas have established: the reconcile reaches the update section. */
  ghost predicate Performable(env: Oracle, w: World, pending: bool) {
    Equippable(env, w, pending) && Scaled(env, w)
  }

  /** The deployment when the update section begins. */
  function Provided(env: Oracle, w: World, needed: bool): Deployment
    requires w.deploy.Some?
  {
    SetHashes(if needed then w.deploy.value
      else Apply(w.deploy.value, w.site, ReleaseId(w.site.spec), FixedConfig(env, w.site.spec)), EnvHashes(env))
  }

  /** The world when the update section begins. */
  function Provisioned(env: Oracle, w: World, needed: bool): World
    requires w.deploy.Some?
  {
    var c := ClaimedSession(env, w);
    c.world.(deploy := Some(Provided(env, w, needed)), schedule := WantsSchedule(c.site))
  }

  /** The session at the beginning of the update section. */
  ghost predicate AtUpdate(env: Oracle, w: World, u: Session, pending: bool)
    requires w.deploy.Some?
  {
    && u.site == ClaimedSession(env, w).site && u.world == Provisioned(env, w, Behind(w) || pending) && !u.flagged
    && u.codeNeeded == Behind(w) && u.dbNeeded == (!Behind(w) && pending)
  }

  /** The transformer does not see whether the site is primary. */
  lemma ApplyIgnoresClaim(env: Oracle, w: World, d: Deployment, release: string, config: Config)
    ensures Apply(d, ClaimedSession(env, w).site, release, config) == Apply(d, w.site, release, config)
  {
    hide Apply, ClaimedSession;
    ClaimedFacts(env, w);
    ApplyReadsLittle(d, w.site, ClaimedSession(env, w).site, release, config);
  }

  lemma ToPerformPath(env: Oracle, w: World, o: Oracle, pending: bool)
    requires Performable(env, w, pending) && SteadyInputs(env, w, o, pending)
    requires Behind(w) || CalmWorld(env, w)
    ensures ToPerform(w, o).Go? && AtUpdate(env, w, ToPerform(w, o).session, pending)
  {
    hide ToEnsure, SpecIncomplete, Synced, ClaimedSession, Listed, ComputeNeeds, PodsUp, Checks, SameInputs, ReleaseId,
      FixedSpec, Announced, Behind, Ensure, Apply, SetHashes, WantsSchedule, Updatable;
    ToEnsurePath(env, w, o, pending);
    ClaimedFacts(env, w);
    ClaimedUpdatable(env, w);
    EnsurePath(env, ComputeNeeds(ClaimedSession(env, w), o), o);
    ApplyIgnoresClaim(env, w, w.deploy.value, ReleaseId(w.site.spec), FixedConfig(env, w.site.spec));
  }

  /** Reading pods, commands and caches on the happy path. */
  lemma ClearsCaches(u: Session, o: Oracle)
    requires ExecPod(o.cache1, Rel(u)).Some? && o.cache1.output == Some("")
    ensures CacheOutput(u, o) == Some("") && ClearCaches(u, o) == u.(log := ClearCaches(u, o).log)
  {
    hide ReleaseId, ExecPod;
  }

  /** A code update writes the deployment until it is settled, and is then verified. */
  lemma UpdateVersionPath(env: Oracle, u: Session, o: Oracle)
    requires FaultFree(o) && SameInputs(env, o)
    requires u.codeNeeded && u.site.meta.updateInProgress.Some? && !u.site.Is(CodeUpdateFailed) && u.world.deploy.Some?
    ensures
      var wanted := Apply(u.world.deploy.value, u.site, Rel(u), FixedConfig(env, u.site.spec));
      && (u.world.deploy.value != wanted ==>
            UpdateVersion(u, o).Stop? && UpdateVersion(u, o).session.world == u.world.(deploy := Some(wanted)))
      && (u.world.deploy.value == wanted && PodsUp(o, Rel(u)) && o.cache1.output == Some("") ==>
            UpdateVersion(u, o).Go? && UpdateVersion(u, o).session == u.(log := UpdateVersion(u, o).session.log))
  {
    hide ReleaseId, Apply, FixedConfig, ConfigOf, SameInputs, CheckRollout, ExecPod, ClearCaches, CacheOutput,
      Transient, WriteStatus, RollBack;
    ConfigPath(env, u, o);
    UpsertSucceeds(u.world.deploy, Apply(u.world.deploy.value, u.site, Rel(u), FixedConfig(env, u.site.spec)));
    if PodsUp(o, Rel(u)) && o.cache1.output == Some("") {
      ClearsCaches(u, o);
    }
  }

  /** A schema update removes the pending condition, after run-updb was accepted. */
  lemma UpdateSchemaPath(u: Session, o: Oracle)
    requires FaultFree(o) && RunsSchemaUpdate(u) && u.site.Is(DBUpdatesPending)
    requires
      && ExecPod(o.backup, Rel(u)).Some? && o.backup.output.Some? && ExecPod(o.runUpdb, Rel(u)).Some?
      && o.runUpdb.output.Some?
    ensures
      var f := UpdateSchema(u, o);
      && f.Stop? && RanUpdb(f.session.log)
      && f.session.world == u.world.(site := u.world.site.(status :=
           WithCondition(WithCondition(u.site, DBUpdatesPending, Absent), DBUpdatesFailed, Absent).status))
  {
    hide ReleaseId, ExecPod, FaultFree;
    assert o.siteWrite == Accepted by { WritesAccepted(o); }
    var n := |u.log|;
    var log := UpdateSchema(u, o).session.log;
    assert log[n + 1].Executed? && log[n + 1].command == RunUpdb;
  }

  lemma WritesAccepted(o: Oracle)
    requires FaultFree(o)
    ensures o.siteWrite == Accepted
  {
  }

  // ------------------------------------------------------------------ what the update section leaves

  /** The hash writer touches neither the release, nor whether the deployment exists or is being debugged. */
  lemma HashedKeeps(d: Deployment, h: Hashes)
    ensures
      var e := SetHashes(d, h);
      e.created == d.created && (e.Debugging() <==> d.Debugging()) && e.ReleaseOf() == d.ReleaseOf()
  {
  }

  /** The deployment an update writes. */
  function Upgraded(env: Oracle, w: World): Deployment
    requires w.deploy.Some?
  {
    Apply(SetHashes(w.deploy.value, EnvHashes(env)), w.site, ReleaseId(w.site.spec), FixedConfig(env, w.site.spec))
  }

  /** A deployment that neither writer changes, at the release of the spec. */
  ghost predicate FullySettled(env: Oracle, site: Site, d: Deployment) {
    && d.created && !d.Debugging() && d.ReleaseOf() == ReleaseId(site.spec)
    && SetHashes(d, EnvHashes(env)) == d && Settled(d, site, ReleaseId(site.spec), FixedConfig(env, site.spec))
  }

  lemma UpgradedIsFullySettled(env: Oracle, w: World)
    requires w.deploy.Some? && w.deploy.value.created && !w.deploy.value.Debugging()
    ensures FullySettled(env, w.site, Upgraded(env, w))
    ensures Provided(env, w, false) == Upgraded(env, w)
  {
    hide Apply, SetHashes, ReleaseId, FixedConfig;
    var d, h, r, c := w.deploy.value, EnvHashes(env), ReleaseId(w.site.spec), FixedConfig(env, w.site.spec);
    HashesCommuteWithApply(d, w.site, r, c, h);
    ApplyMarksRelease(d, w.site, r, c);
    assert Stored(Apply(d, w.site, r, c)) == Apply(d, w.site, r, c) by { StoredNothing(Apply(d, w.site, r, c)); }
    WritersSettleTogether(d, w.site, r, c, h);
    HashedKeeps(Apply(d, w.site, r, c), h);
  }

  lemma StoredNothing(d: Deployment)
    requires d.created
    ensures Stored(d) == d
  {
  }

  lemma FullySettledIsSmooth(env: Oracle, w: World, next: World)
    requires next.deploy.Some? && FullySettled(env, w.site, next.deploy.value)
    requires SameShape(w.site, next.site) && ReleaseId(next.site.spec) == ReleaseId(w.site.spec)
    requires next.site.status.failsafe == "" ==> w.site.status.failsafe == ""
    ensures Roughness(env, next) == 0 && Deployed(next)
  {
    hide Apply, SetHashes, ReleaseId, Settled;
    FailsafeKeepsSettled(next.deploy.value, w.site, next.site, ReleaseId(w.site.spec), FixedConfig(env, w.site.spec));
    assert FixedConfig(env, w.site.spec) == FixedConfig(env, next.site.spec);
  }

  /** Hashing alone smooths what it can. */
  lemma HashedIsSmoother(env: Oracle, w: World, next: World)
    requires w.deploy.Some? && next.deploy == Some(SetHashes(w.deploy.value, EnvHashes(env)))
    requires SameShape(w.site, next.site) && ReleaseId(next.site.spec) == ReleaseId(w.site.spec)
    requires next.site.status.failsafe == "" ==> w.site.status.failsafe == ""
    ensures Roughness(env, next) <= Roughness(env, w) && Deployed(next) == Deployed(w)
    ensures !Hashed(env, w) ==> Roughness(env, next) < Roughness(env, w)
  {
    hide Apply, SetHashes, ReleaseId, Settled;
    var d, h := w.deploy.value, EnvHashes(env);
    HashesTwice(d, h);
    HashedKeeps(d, h);
    if Shaped(env, w) {
      FailsafeKeepsSettled(SetHashes(d, h), w.site, next.site, ReleaseId(w.site.spec), FixedConfig(env, w.site.spec));
    }
    assert FixedConfig(env, w.site.spec) == FixedConfig(env, next.site.spec);
  }

  /** The update is settled exactly when the transformer has nothing to add to the hashed deployment. */
  lemma ShapedMeansUpgraded(env: Oracle, w: World)
    requires w.deploy.Some? && w.deploy.value.created && !w.deploy.value.Debugging()
    ensures Shaped(env, w) <==> Upgraded(env, w) == SetHashes(w.deploy.value, EnvHashes(env))
    ensures Shaped(env, w) ==> Deployed(w)
  {
    hide Apply, SetHashes, ReleaseId, FixedConfig;
    var e := SetHashes(w.deploy.value, EnvHashes(env));
    HashedKeeps(w.deploy.value, EnvHashes(env));
    if Shaped(env, w) {
      UnchangedMeansReleased(e, w.site, ReleaseId(w.site.spec), FixedConfig(env, w.site.spec));
    }
  }

  // ------------------------------------------------------------------ the four ends of an update section

  /** Writing the deployment at the release of the spec. */
  function Redeployed(env: Oracle, w: World): World
    requires w.deploy.Some?
  {
    Provisioned(env, w, true).(deploy := Some(Upgraded(env, w)))
  }

  lemma Upgrades(env: Oracle, w: World, o: Oracle, pending: bool)
    requires Performable(env, w, pending) && SteadyInputs(env, w, o, pending) && Behind(w) && !Shaped(env, w)
    ensures Reconciled(w, o).session.world == Redeployed(env, w)
  {
    hide ToPerform, SpecIncomplete, Synced, ClaimedSession, Listed, PodsUp, Checks, SameInputs, ReleaseId, FixedSpec,
      Announced, Behind, Apply, SetHashes, WantsSchedule, Shaped, UpdateVersion;
    ToPerformPath(env, w, o, pending);
    var u := ToPerform(w, o).session;
    ClaimedFacts(env, w);
    ClaimedUpdatable(env, w);
    UpdateVersionPath(env, u, o);
    ApplyIgnoresClaim(env, w, u.world.deploy.value, ReleaseId(w.site.spec), FixedConfig(env, w.site.spec));
    ShapedMeansUpgraded(env, w);
  }

  lemma StepUpgrades(env: Oracle, w: World, before: bool, after: bool)
    requires Performable(env, w, before) && Behind(w) && !Shaped(env, w)
    requires Deployed(w) ==> after == before
    ensures StaysSteady(env, w, Redeployed(env, w)) && Progress(env, w, before, Redeployed(env, w), after)
  {
    hide SpecIncomplete, Roughness, ReleaseId, Synced, ClaimedSession, Chores, WantsSchedule, Apply, SetHashes,
      FixedSpec, Settled, Listed, Scaled;
    ClaimedFacts(env, w);
    var next := Redeployed(env, w);
    UpgradedIsFullySettled(env, w);
    FullySettledIsSmooth(env, w, next);
    SyncedUnfailed(env, w);
    ChoresAfterClaim(env, w, next);
    assert Roughness(env, w) > 0 by { UnshapedIsRough(env, w); }
  }

  lemma UnshapedIsRough(env: Oracle, w: World)
    requires !Shaped(env, w)
    ensures Roughness(env, w) > 0
  {
  }

  /** Recording the release as the failsafe one, with the deployment as ensured. */
  function Verified(env: Oracle, w: World, needed: bool): World
    requires w.deploy.Some?
  {
    var next := Provisioned(env, w, needed);
    next.(site := next.site.(status := Advanced(ClaimedSession(env, w).site, env.resources.flags).status))
  }

  lemma VerifiesRelease(env: Oracle, w: World, o: Oracle, pending: bool)
    requires
      && CalmWorld(env, w) && Performable(env, w, pending) && CalmInputs(env, w, o, pending) && Behind(w)
      && Shaped(env, w)
    ensures Reconciled(w, o).session.world == Verified(env, w, true)
  {
    hide ToPerform, SpecIncomplete, ClaimedSession, Listed, SameInputs, PodsUp, ReleaseId, FixedSpec, Announced, Apply,
      SetHashes, WantsSchedule, Shaped, UpdateVersion, UpdateSchema, FaultFree;
    ToPerformPath(env, w, o, pending);
    var u := ToPerform(w, o).session;
    ClaimedFacts(env, w);
    ClaimedUpdatable(env, w);
    UpdateVersionPath(env, u, o);
    ApplyIgnoresClaim(env, w, u.world.deploy.value, ReleaseId(w.site.spec), FixedConfig(env, w.site.spec));
    ShapedMeansUpgraded(env, w);
    var v := UpdateVersion(u, o).session;
    NoSchemaUpdate(v, o);
    Advances(env, w, v, o);
  }

  lemma NoSchemaUpdate(u: Session, o: Oracle)
    requires !u.dbNeeded || u.site.meta.updateInProgress.None?
    ensures UpdateSchema(u, o) == Go(u)
  {
  }

  lemma NoCodeUpdate(u: Session, o: Oracle)
    requires !u.codeNeeded
    ensures UpdateVersion(u, o) == Go(u)
  {
  }

  lemma Advances(env: Oracle, w: World, u: Session, o: Oracle)
    requires
      && CalmWorld(env, w) && Synced(env, w) && u.site == ClaimedSession(env, w).site && FaultFree(o)
      && SameInputs(env, o)
    ensures w.site.status.failsafe != ReleaseId(w.site.spec) ==>
      AdvanceFailsafe(u, o).session.world
      == u.world.(site := u.world.site.(status := Advanced(ClaimedSession(env, w).site, env.resources.flags).status))
    ensures w.site.status.failsafe == ReleaseId(w.site.spec) ==> AdvanceFailsafe(u, o).session == u
  {
    hide ReleaseId, ClaimedSession, FixedSpec, SiteImage;
    ClaimedFacts(env, w);
    ClaimedUpdatable(env, w);
  }

  lemma ReleaseIdNonempty(spec: Spec)
    ensures ReleaseId(spec) != ""
  {
    assert |ReleaseId(spec)| > 0;
  }

  lemma StepVerifies(env: Oracle, w: World, pending: bool)
    requires CalmWorld(env, w) && Performable(env, w, pending) && Behind(w) && Deployed(w)
    ensures CalmWorld(env, Verified(env, w, true)) && Deployed(Verified(env, w, true))
    ensures Progress(env, w, pending, Verified(env, w, true), pending)
  {
    hide SpecIncomplete, Roughness, ReleaseId, Synced, ClaimedSession, Chores, WantsSchedule, Apply, SetHashes,
      FixedSpec, Settled, Listed, Scaled, SiteImage;
    ClaimedFacts(env, w);
    ClaimedUpdatable(env, w);
    ReleaseIdNonempty(w.site.spec);
    var next := Verified(env, w, true);
    HashedKeeps(w.deploy.value, EnvHashes(env));
    HashedIsSmoother(env, w, next);
    SyncedUnfailed(env, w);
    ChoresAfterClaim(env, w, next);
  }

  /** The schema update is done. */
  function Migrated(env: Oracle, w: World): World
    requires w.deploy.Some?
  {
    var next := Provisioned(env, w, true);
    var pendingGone := WithCondition(ClaimedSession(env, w).site, DBUpdatesPending, Absent);
    next.(site := next.site.(status := WithCondition(pendingGone, DBUpdatesFailed, Absent).status))
  }

  lemma Migrates(env: Oracle, w: World, o: Oracle)
    requires CalmWorld(env, w) && Performable(env, w, true) && CalmInputs(env, w, o, true) && !Behind(w)
    ensures Reconciled(w, o).session.world == Migrated(env, w) && RanUpdb(Log(w, o))
  {
    hide ToPerform, SpecIncomplete, ClaimedSession, Listed, SameInputs, ReleaseId, FixedSpec, SetHashes, WantsSchedule,
      Synced, UpdateVersion, UpdateSchema, FaultFree, ExecPod, Chores, RanUpdb;
    ToPerformPath(env, w, o, true);
    var u := ToPerform(w, o).session;
    ClaimedFacts(env, w);
    ClaimedUpdatable(env, w);
    NoCodeUpdate(u, o);
    UpdateSchemaPath(u, o);
  }

  lemma StepMigrates(env: Oracle, w: World)
    requires CalmWorld(env, w) && Performable(env, w, true) && !Behind(w)
    ensures
      && CalmWorld(env, Migrated(env, w)) && Deployed(Migrated(env, w))
      && Progress(env, w, true, Migrated(env, w), false)
  {
    hide SpecIncomplete, Roughness, ReleaseId, Synced, ClaimedSession, Chores, WantsSchedule, Apply, SetHashes,
      FixedSpec, Settled, Listed, Scaled;
    ClaimedFacts(env, w);
    var next := Migrated(env, w);
    HashedKeeps(w.deploy.value, EnvHashes(env));
    HashedIsSmoother(env, w, next);
    SyncedUnfailed(env, w);
    ChoresAfterClaim(env, w, next);
  }

  /** Nothing is needed: the release is recorded if it is not yet, and that is all. */
  function Tended(env: Oracle, w: World): World
    requires w.deploy.Some?
  {
    if w.site.status.failsafe != ReleaseId(w.site.spec) then Verified(env, w, false) else Provisioned(env, w, false)
  }

  lemma Tends(env: Oracle, w: World, o: Oracle)
    requires CalmWorld(env, w) && Performable(env, w, false) && CalmInputs(env, w, o, false) && !Behind(w)
    ensures Reconciled(w, o).session.world == Tended(env, w)
    ensures w.site.status.failsafe == ReleaseId(w.site.spec) ==> Log(w, o) == ToPerform(w, o).session.log
  {
    hide ToPerform, SpecIncomplete, ClaimedSession, Listed, SameInputs, ReleaseId, FixedSpec, SetHashes, Apply,
      WantsSchedule, UpdateVersion, UpdateSchema, FaultFree, ExecPod;
    ToPerformPath(env, w, o, false);
    var u := ToPerform(w, o).session;
    ClaimedUpdatable(env, w);
    NoCodeUpdate(u, o);
    NoSchemaUpdate(u, o);
    Advances(env, w, u, o);
  }

  lemma StepTends(env: Oracle, w: World)
    requires CalmWorld(env, w) && Performable(env, w, false) && !Behind(w)
    ensures CalmWorld(env, Tended(env, w)) && Deployed(Tended(env, w))
    ensures Rank(env, w, false) > 0 ==> Progress(env, w, false, Tended(env, w), false)
  {
    hide SpecIncomplete, Roughness, ReleaseId, Synced, ClaimedSession, Chores, WantsSchedule, Apply, SetHashes,
      FixedSpec, Settled, Listed, Scaled, SiteImage, Claimed, Scheduled;
    ClaimedFacts(env, w);
    ClaimedUpdatable(env, w);
    ReleaseIdNonempty(w.site.spec);
    var next := Tended(env, w);
    UpgradedIsFullySettled(env, w);
    FullySettledIsSmooth(env, w, next);
    SyncedUnfailed(env, w);
    ChoresAfterClaim(env, w, next);
    if Claimed(env, w) && Scheduled(w) {
      ChoresOfPerformable(env, w, false);
    }
  }

  /** At the update section only the claim and the schedule can be open chores. */
  lemma ChoresOfPerformable(env: Oracle, w: World, pending: bool)
    requires Performable(env, w, pending) && Claimed(env, w) && Scheduled(w)
    ensures Chores(env, w) == 0
  {
    hide ReleaseId, Alive, Synced, Scaled, Listed, WantsSchedule;
  }

  // ------------------------------------------------------------------ rest

  /** A site whose update is over: verified, marked and running the release of the spec, without a failure. */
  ghost predicate AtRest(w: World) {
    && w.deploy.Some? && w.deploy.value.ReleaseOf() == ReleaseId(w.site.spec)
    && w.site.status.current == ReleaseId(w.site.spec) && w.site.status.failsafe == ReleaseId(w.site.spec)
    && w.site.meta.updateInProgress == None
    && w.site.status.conditions.dbUpdatesPending == Absent
    && !w.site.Is(CodeUpdateFailed) && !w.site.Is(DBUpdatesFailed)
  }

  lemma RankZero(env: Oracle, w: World, pending: bool)
    requires CalmWorld(env, w) && Rank(env, w, pending) == 0
    ensures AtRest(w) && !pending && Performable(env, w, false) && !Behind(w)
    ensures Claimed(env, w) && Scheduled(w) && Hashed(env, w) && Shaped(env, w)
  {
    hide ReleaseId, Alive, SpecIncomplete, WantsSchedule, SetHashes, Settled, Listed, Scaled, Claimed;
  }

  /** The session that ensured resources and found nothing to do has logged nothing but the question to the pod. */
  lemma RestLog(env: Oracle, w: World, o: Oracle)
    requires CalmWorld(env, w) && Rank(env, w, false) == 0 && CalmInputs(env, w, o, false)
    ensures forall e :: e in ToPerform(w, o).session.log ==> e.Executed?
  {
    hide ToEnsure, SpecIncomplete, Synced, ClaimedSession, Listed, ComputeNeeds, PodsUp, Answers, SameInputs, ReleaseId,
      FixedSpec, Announced, Behind, Ensure, Apply, SetHashes, WantsSchedule, Updatable, Rank, Performable, Claimed,
      Hashed, Shaped, Untouched;
    RankZero(env, w, false);
    assert SteadyInputs(env, w, o, false) by { CalmIsSteady(env, w, o, false); }
    assert Equippable(env, w, false) && Scaled(env, w) by { PerformableParts(env, w); }
    var t := ComputeNeeds(ClaimedSession(env, w), o);
    ToEnsurePath(env, w, o, false);
    ClaimedFacts(env, w);
    ClaimedUpdatable(env, w);
    EnsurePath(env, t, o);
    RestUntouched(env, w, t);
  }

  lemma PerformableParts(env: Oracle, w: World)
    requires Performable(env, w, false)
    ensures Equippable(env, w, false) && Scaled(env, w)
  {
  }

  lemma RestUntouched(env: Oracle, w: World, t: Session)
    requires CalmWorld(env, w) && Rank(env, w, false) == 0 && t.site == w.site && t.world == w
    ensures Untouched(env, t, w.deploy.value)
  {
    hide ReleaseId, Apply, SetHashes, WantsSchedule, FixedConfig, Rank;
    RankZero(env, w, false);
  }

  /** At rank zero a reconcile asks the pod, and changes nothing. */
  lemma Rests(env: Oracle, w: World, o: Oracle)
    requires CalmWorld(env, w) && Rank(env, w, false) == 0 && CalmInputs(env, w, o, false)
    ensures Reconciled(w, o).session.world == w
    ensures forall e :: e in Log(w, o) ==> e.Executed?
  {
    hide Reconciled, ToPerform, Rank, CalmWorld, CalmInputs, ReleaseId, Performable, Behind, Provisioned;
    RankZero(env, w, false);
    Tends(env, w, o);
    RestLog(env, w, o);
    RestWorld(env, w);
  }

  lemma RestWorld(env: Oracle, w: World)
    requires CalmWorld(env, w) && Rank(env, w, false) == 0
    ensures Tended(env, w) == w
  {
    hide Rank, Apply, SetHashes, FixedConfig, ReleaseId, WantsSchedule;
    RankZero(env, w, false);
    ClaimedFacts(env, w);
  }

  // ------------------------------------------------------------------ one step

  /** Fewer pending schema updates are never further from the end. */
  lemma PendingDrops(env: Oracle, w: World)
    ensures Rank(env, w, false) < Rank(env, w, true)
  {
    hide ReleaseId, Behind, Chores, Roughness;
  }

  /** Whether the world is left as it is, and how its rank develops. */
  ghost predicate StepsForward(env: Oracle, w: World, before: bool, next: World, after: bool) {
    CalmWorld(env, next) && (Rank(env, next, after) < Rank(env, w, before)
      || (Rank(env, w, before) == 0 && next == w && after == before))
  }

  /** The steps before the resources, whatever is pending. */
  lemma StepEarly(env: Oracle, w: World, o: Oracle, pending: bool)
    requires SteadyWorld(env, w) && SteadyInputs(env, w, o, pending) && !Performable(env, w, pending)
    ensures
      var next := Reconciled(w, o).session.world;
      StaysSteady(env, w, next) && Deployed(next) == Deployed(w) && Rank(env, next, pending) < Rank(env, w, pending)
  {
    hide Reconciled, ReleaseId, CalmWorld, Synced, Listed, Marked, Announced, Scaled, SpecIncomplete, Behind, Rank,
      Chores, Distance, Roughness, Remarked, Reannounced, Rescaled, Deployed, Checks, SameInputs, FaultFree, Alive,
      Tidier;
    assert Alive(env, w) by { SteadyIsAlive(env, w); }
    if !Tidy(env, w) {
      AliveIsManaged(env, w, o);
      Housekeeps(env, w, o);
      TidierIsSteady(env, w, Reconciled(w, o).session.world, pending);
    } else if !Marked(w, Behind(w) || pending) {
      Marks(env, w, o, pending);
      StepMarks(env, w, pending);
    } else if !Announced(w, !Behind(w) && pending) {
      Announces(env, w, o, pending);
      StepAnnounces(env, w, pending);
    } else {
      Scales(env, w, o, pending);
      StepScales(env, w, pending);
    }
  }

  lemma TidierIsSteady(env: Oracle, w: World, next: World, pending: bool)
    requires SteadyWorld(env, w) && Tidier(env, w, next)
    ensures
      && StaysSteady(env, w, next) && Deployed(next) == Deployed(w) && Rank(env, next, pending) < Rank(env, w, pending)
  {
    hide ReleaseId, Alive, Chores, Roughness, Distance;
    TidierIsAlive(env, w, next);
    RoughnessFrame(env, w, next);
    DistanceFrame(w, next, pending);
  }

  lemma SteadyIsAlive(env: Oracle, w: World)
    requires SteadyWorld(env, w)
    ensures Alive(env, w)
  {
  }

  /** Calm is a kind of steady. */
  lemma CalmIsSteady(env: Oracle, w: World, o: Oracle, pending: bool)
    requires CalmWorld(env, w) && CalmInputs(env, w, o, pending)
    ensures SteadyWorld(env, w) && SteadyInputs(env, w, o, pending)
  {
    hide FaultFree, SameInputs, PodsUp, Checks, Alive, ReleaseId;
  }

  /** The step that writes the deployment may bring schema updates with the new release. */
  lemma StepUpgrade(env: Oracle, w: World, o: Oracle, before: bool, after: bool)
    requires Performable(env, w, before) && SteadyInputs(env, w, o, before) && Behind(w) && !Shaped(env, w)
    requires Deployed(w) ==> after == before
    ensures
      var next := Reconciled(w, o).session.world;
      StaysSteady(env, w, next) && Deployed(next) && Rank(env, next, after) < Rank(env, w, before)
  {
    hide Reconciled, ReleaseId, CalmWorld, Performable, Behind, Rank, Chores, Distance, Roughness, Redeployed, Shaped,
      CalmInputs;
    Upgrades(env, w, o, before);
    StepUpgrades(env, w, before, after);
    RedeployedIsDeployed(env, w, before);
  }

  lemma RedeployedIsDeployed(env: Oracle, w: World, pending: bool)
    requires Performable(env, w, pending)
    ensures w.deploy.Some? && Deployed(Redeployed(env, w))
  {
    hide ReleaseId, Apply, SetHashes, Synced, SpecIncomplete, FixedSpec, Settled, ClaimedSession;
    UpgradedIsFullySettled(env, w);
    ClaimedFacts(env, w);
  }

  /** The other steps of the update section. */
  lemma StepLate(env: Oracle, w: World, o: Oracle, pending: bool)
    requires
      && CalmWorld(env, w) && Performable(env, w, pending) && CalmInputs(env, w, o, pending)
      && (!Behind(w) || Shaped(env, w))
    ensures
      var next := Reconciled(w, o).session.world;
      && CalmWorld(env, next) && Deployed(next) && Deployed(w)
      && (!Behind(w) && pending ==> RanUpdb(Log(w, o)) && Rank(env, next, false) < Rank(env, w, true))
      && (Behind(w) || !pending ==>
        || Rank(env, next, pending) < Rank(env, w, pending)
        || (Rank(env, w, pending) == 0 && next == w))
  {
    hide Reconciled, ReleaseId, CalmWorld, Performable, Rank, Chores, Distance, Roughness, Shaped, CalmInputs, Verified,
      Migrated, Tended, RanUpdb;
    assert Alive(env, w) by { PerformableIsAlive(env, w, pending); }
    ShapedMeansUpgraded(env, w);
    if Behind(w) {
      VerifiesRelease(env, w, o, pending);
      StepVerifies(env, w, pending);
    } else if pending {
      Migrates(env, w, o);
      StepMigrates(env, w);
    } else {
      Tends(env, w, o);
      StepTends(env, w);
      if Rank(env, w, false) == 0 {
        RestWorld(env, w);
      }
    }
  }

  lemma PerformableIsAlive(env: Oracle, w: World, pending: bool)
    requires Performable(env, w, pending)
    ensures Alive(env, w)
  {
  }

  /** Until the deployment is settled, pods and commands do not matter. */
  lemma StepSteady(env: Oracle, w: World, o: Oracle, before: bool, after: bool)
    requires CalmWorld(env, w) && SteadyInputs(env, w, o, before)
    requires !Performable(env, w, before) || (Behind(w) && !Shaped(env, w))
    requires PendingFollows(w, Log(w, o), Reconciled(w, o).session.world, before, after)
    ensures StepsForward(env, w, before, Reconciled(w, o).session.world, after)
  {
    hide Reconciled, ReleaseId, CalmWorld, SteadyWorld, SteadyInputs, Performable, Behind, Rank, Shaped, RanUpdb,
      Deployed;
    PendingDrops(env, Reconciled(w, o).session.world);
    if !Performable(env, w, before) {
      assert SteadyWorld(env, w) by { CalmWorldIsSteady(env, w); }
      StepEarly(env, w, o, before);
      CalmNeverZero(env, w, before);
    } else {
      StepUpgrade(env, w, o, before, before);
      if !Deployed(w) {
        StepUpgrade(env, w, o, before, after);
      }
    }
  }

  lemma CalmWorldIsSteady(env: Oracle, w: World)
    requires CalmWorld(env, w)
    ensures SteadyWorld(env, w)
  {
  }

  /** Every fault-free reconcile of a calm world lowers the rank, or finds it at zero and changes nothing. */
  lemma StepLowersRank(env: Oracle, w: World, o: Oracle, before: bool, after: bool)
    requires CalmWorld(env, w) && CalmInputs(env, w, o, before)
    requires PendingFollows(w, Log(w, o), Reconciled(w, o).session.world, before, after)
    ensures StepsForward(env, w, before, Reconciled(w, o).session.world, after)
  {
    hide Reconciled, ReleaseId, CalmWorld, CalmInputs, SteadyWorld, SteadyInputs, Performable, Behind, Rank, Shaped,
      RanUpdb, Deployed;
    PendingDrops(env, Reconciled(w, o).session.world);
    CalmIsSteady(env, w, o, before);
    if !Performable(env, w, before) || (Behind(w) && !Shaped(env, w)) {
      StepSteady(env, w, o, before, after);
    } else {
      StepLate(env, w, o, before);
      if Rank(env, w, before) == 0 {
        RankZero(env, w, before);
      }
    }
  }

  lemma CalmNeverZero(env: Oracle, w: World, pending: bool)
    requires CalmWorld(env, w) && !Performable(env, w, pending)
    ensures Rank(env, w, pending) > 0
  {
    hide Rank, CalmWorld, Performable;
    if Rank(env, w, pending) == 0 {
      RankZero(env, w, pending);
    }
  }

  // ------------------------------------------------------------------ runs

  /** Whole reconciles one after the other, without faults and in a constant environment. */
  ghost predicate IsCalmRun(env: Oracle, ws: seq<World>, os: seq<Oracle>, pending: seq<bool>) {
    && |ws| == |pending| == |os| + 1
    && forall i :: 0 <= i < |os| ==>
         && ws[i + 1] == After(ws[i], Log(ws[i], os[i]))
         && CalmInputs(env, ws[i], os[i], pending[i])
         && PendingFollows(ws[i], Log(ws[i], os[i]), ws[i + 1], pending[i], pending[i + 1])
  }

  lemma WorldAfterLog(w: World, o: Oracle)
    ensures After(w, Log(w, o)) == Reconciled(w, o).session.world
  {
    hide Reconciled;
    LogCases(w, o);
  }

  lemma {:induction false} RankFalls(env: Oracle, ws: seq<World>, os: seq<Oracle>, pending: seq<bool>, i: nat)
    requires IsCalmRun(env, ws, os, pending) && CalmWorld(env, ws[0]) && i < |ws|
    ensures CalmWorld(env, ws[i])
    ensures Rank(env, ws[i], pending[i]) == 0 || Rank(env, ws[i], pending[i]) + i <= Rank(env, ws[0], pending[0])
    decreases i
  {
    hide Log, Rank, CalmWorld, CalmInputs, PendingFollows;
    if i > 0 {
      RankFalls(env, ws, os, pending, i - 1);
      var w, o := ws[i - 1], os[i - 1];
      assert CalmInputs(env, w, o, pending[i - 1]);
      WorldAfterLog(w, o);
      StepLowersRank(env, w, o, pending[i - 1], pending[i]);
    }
  }

  /**
   * Convergence: whatever calm state a site starts in, from the 27th fault-free reconcile on the update is over, with
   * failsafe, current and deployed release all equal to the release of the spec, and a reconcile writes nothing: it
   * executes at most a question in a pod and leaves the world as it is.
   */
  lemma Converges(env: Oracle, ws: seq<World>, os: seq<Oracle>, pending: seq<bool>, i: nat)
    requires IsCalmRun(env, ws, os, pending) && CalmWorld(env, ws[0])
    requires Rank(env, ws[0], pending[0]) <= i < |os|
    ensures AtRest(ws[i]) && !pending[i]
    ensures ws[i + 1] == ws[i] && forall e :: e in Log(ws[i], os[i]) ==> e.Executed?
    ensures RunsAsAllowed(env, ws[i])
  {
    hide Log, Rank, CalmWorld, CalmInputs, PendingFollows, RunsAsAllowed;
    RankFalls(env, ws, os, pending, i);
    assert Rank(env, ws[i], pending[i]) == 0 by { RankOfSmall(env, ws[i], pending[i], ws[0], pending[0], i); }
    RankZero(env, ws[i], pending[i]);
    assert CalmInputs(env, ws[i], os[i], pending[i]);
    Rests(env, ws[i], os[i]);
    RestRuns(env, ws[i], os[i]);
    WorldAfterLog(ws[i], os[i]);
  }

  lemma RankOfSmall(env: Oracle, w: World, pending: bool, w0: World, pending0: bool, i: nat)
    requires Rank(env, w, pending) == 0 || Rank(env, w, pending) + i <= Rank(env, w0, pending0)
    requires Rank(env, w0, pending0) <= i
    ensures Rank(env, w, pending) == 0
  {
    hide Chores, Distance, Roughness;
  }

  /**
   * The site has the replicas its project may have, the configuration hashes, and a schedule exactly if it wants one.
   */
  ghost predicate RunsAsAllowed(env: Oracle, w: World) {
    var n := if env.namespace == NamespaceFound(true, true) then 0 else if w.site.spec.qos == Critical then 3 else 1;
    && w.deploy.Some? && w.deploy.value.replicas == n && w.site.status.expectedReplicas == Some(n)
    && (w.schedule <==>
          w.site.Is(Initialized) && (w.site.status.isPrimary || w.site.spec.scheduledBackups == "enabled"))
    && env.configmaps.ConfigmapsFound? && HasHashes(w.deploy.value, env.configmaps.hashes)
  }

  predicate HasHashes(d: Deployment, h: Hashes) {
    && PhpHash in d.podAnnotations && d.podAnnotations[PhpHash] == h.php
    && NginxHash in d.podAnnotations && d.podAnnotations[NginxHash] == h.nginx
    && SettingsHash in d.podAnnotations && d.podAnnotations[SettingsHash] == h.settings
    && PhpCliHash in d.podAnnotations && d.podAnnotations[PhpCliHash] == h.phpCli
  }

  lemma HashedHas(d: Deployment, h: Hashes)
    requires SetHashes(d, h) == d
    ensures HasHashes(d, h)
  {
    assert PhpHash in SetHashes(d, h).podAnnotations;
  }

  /** A deployment that neither writer changes, and nobody debugs, has the replicas of the configuration. */
  lemma SettledRuns(env: Oracle, w: World)
    requires
      && w.deploy.Some? && Hashed(env, w) && Shaped(env, w) && !w.deploy.value.Debugging() && Scheduled(w)
      && Scaled(env, w)
    requires env.configmaps.ConfigmapsFound? && (Blocked(env) || Unblocked(env))
    ensures RunsAsAllowed(env, w)
  {
    hide Apply, SetHashes, ReleaseId, HasHashes;
    HashedHas(w.deploy.value, EnvHashes(env));
    ApplyMarksRelease(w.deploy.value, w.site, ReleaseId(w.site.spec), FixedConfig(env, w.site.spec));
  }

  lemma RestRuns(env: Oracle, w: World, o: Oracle)
    requires CalmWorld(env, w) && Rank(env, w, false) == 0 && CalmInputs(env, w, o, false)
    ensures RunsAsAllowed(env, w)
  {
    hide Rank, ReleaseId, FixedSpec, Shaped, Hashed, Scheduled, RunsAsAllowed, Scaled, Claimed, Synced, AtRest, Behind,
      FaultFree, Answers, PodsUp;
    RankZero(env, w, false);
    SettledRuns(env, w);
  }

  /** The bound does not depend on the site. */
  lemma ConvergesWithin26(env: Oracle, ws: seq<World>, os: seq<Oracle>, pending: seq<bool>, i: nat)
    requires IsCalmRun(env, ws, os, pending) && CalmWorld(env, ws[0]) && 26 <= i < |os|
    ensures AtRest(ws[i]) && ws[i + 1] == ws[i] && forall e :: e in Log(ws[i], os[i]) ==> e.Executed?
    ensures RunsAsAllowed(env, ws[i])
  {
    hide Log, CalmWorld, CalmInputs, PendingFollows, Chores, Distance, Roughness, RunsAsAllowed;
    Converges(env, ws, os, pending, i);
  }

  // ------------------------------------------------------------------ such runs exist

  /** The lists the environment has to offer. */
  ghost predicate Offers(env: Oracle) {
    && env.sitesInProject.Some? && env.backups.Some? && env.configmaps.ConfigmapsFound?
    && (Blocked(env) || Unblocked(env))
  }

  function Obeys(pods: seq<Pod>, output: string): Exec {
    Exec(Some(pods), Some(output))
  }

  /** A reconcile in which everything works. */
  function Smooth(env: Oracle, release: string, pending: bool): Oracle {
    var pods := [Pod(release, Running, 0)];
    env.(siteReadFails := false, configReadFails := false, randomPassword := "secret", specValid := true,
         readyReadFails := false, codeReadFails := false, dbod0Fails := false, dbod1Fails := false,
         dbod2Fails := false, dbod3Fails := false, overrideReadFails := false, otherResourcesFail := false,
         ensureReadFails := false, ensureCall := SUCCEEDS, scheduleCall := SUCCEEDS, hashCall := SUCCEEDS,
         updateCall := SUCCEEDS, rollbackCall := SUCCEEDS, siteWrite := Accepted, configWrite := Accepted,
         checkUpdb := Obeys(pods, if pending then "updates" else ""),
         cache1 := Obeys(pods, ""), backup := Obeys(pods, ""), runUpdb := Obeys(pods, ""), rolloutPods := Some(pods))
  }

  lemma SmoothIsCalm(env: Oracle, w: World, pending: bool)
    requires Offers(env)
    ensures CalmInputs(env, w, Smooth(env, ReleaseId(w.site.spec), pending), pending)
  {
    hide ReleaseId;
    FirstPodRuns(ReleaseId(w.site.spec));
  }

  lemma FirstPodRuns(release: string)
    ensures PodFor([Pod(release, Running, 0)], release) == Some(Pod(release, Running, 0))
  {
  }

  /** From every world there are calm runs of every length, so convergence is not an empty promise. */
  lemma {:induction false} CalmRunExists(env: Oracle, w: World, pending: bool, n: nat)
    requires Offers(env)
    ensures exists ws, os, ps :: IsCalmRun(env, ws, os, ps) && |os| == n && ws[0] == w && ps[0] == pending
    decreases n
  {
    hide Log, CalmInputs, PendingFollows, ReleaseId, Smooth, RanUpdb;
    if n == 0 {
      assert IsCalmRun(env, [w], [], [pending]);
    } else {
      CalmRunExists(env, w, pending, n - 1);
      var ws: seq<World>, os: seq<Oracle>, ps: seq<bool> :| IsCalmRun(env, ws, os, ps) && |os| == n - 1 && ws[0] == w
        && ps[0] == pending;
      var v, p := ws[n - 1], ps[n - 1];
      var o := Smooth(env, ReleaseId(v.site.spec), p);
      SmoothIsCalm(env, v, p);
      var next := After(v, Log(v, o));
      var after := p && !RanUpdb(Log(v, o));
      assert PendingFollows(v, Log(v, o), next, p, after) by { PendingCanFollow(v, Log(v, o), next, p); }
      LongerRun(env, ws, os, ps, next, o, after);
      assert IsCalmRun(env, ws + [next], os + [o], ps + [after]);
    }
  }

  lemma PendingCanFollow(w: World, log: seq<Event>, next: World, before: bool)
    ensures PendingFollows(w, log, next, before, before && !RanUpdb(log))
  {
  }

  lemma LongerRun(env: Oracle, ws: seq<World>, os: seq<Oracle>, ps: seq<bool>, next: World, o: Oracle, after: bool)
    requires IsCalmRun(env, ws, os, ps)
    requires
      var v, p := ws[|os|], ps[|os|];
      next == After(v, Log(v, o)) && CalmInputs(env, v, o, p) && PendingFollows(v, Log(v, o), next, p, after)
    ensures IsCalmRun(env, ws + [next], os + [o], ps + [after])
  {
    hide Log, CalmInputs, PendingFollows;
    forall i | 0 <= i < |os + [o]|
      ensures
        && (ws + [next])[i + 1] == After((ws + [next])[i], Log((ws + [next])[i], (os + [o])[i]))
        && CalmInputs(env, (ws + [next])[i], (os + [o])[i], (ps + [after])[i])
        && PendingFollows((ws + [next])[i], Log((ws + [next])[i], (os + [o])[i]), (ws + [next])[i + 1],
          (ps + [after])[i], (ps + [after])[i + 1])
    {
      if i < |os| {
        assert (ws + [next])[i] == ws[i] && (os + [o])[i] == os[i] && (ps + [after])[i] == ps[i];
      }
    }
  }
}
