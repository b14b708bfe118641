// A code update whose pods do not come up, or whose caches do not clear quietly: the operator gives up within a bounded
// number of reconciles, and the site recovers when the spec asks for the failsafe release again.
module FailedUpdate {
  import opened Kube
  import opened DrupalSites
  import opened Deployments
  import opened DeploymentLaws
  import opened Workflow
  import Pods
  import opened Calm
  import opened Housekeeping
  import opened Convergence

  /**
   * A live site on its way to a release that is not its failsafe one, or given up on with the failsafe one deployed.
   */
  ghost predicate StuckWorld(env: Oracle, w: World) {
    && Alive(env, w) && w.site.name != "" && w.site.status.failsafe != "" && !Restored(w)
    && (w.site.Is(CodeUpdateFailed) ==> w.deploy.value.ReleaseOf() == w.site.status.failsafe)
  }

  /** The pods of the release came up, but a cache clear in the first, running one has something to say. */
  ghost predicate Complains(o: Oracle, release: string) {
    && Pods.RunningPods(o.rolloutPods, release)
    && Pods.HasRunner(o.cache1, release) && o.cache1.output.Some? && o.cache1.output != Some("")
  }

  /**
   * No fault, but the first pod of the new release has failed, is in an unknown phase, or has been pending for ten
   * minutes; or it came up, and clearing its caches complains.
   */
  ghost predicate BrokenInputs(env: Oracle, w: World, o: Oracle) {
    && FaultFree(o) && SameInputs(env, o)
    && (Pods.BrokenPods(o.rolloutPods, ReleaseId(w.site.spec)) || Complains(o, ReleaseId(w.site.spec)))
  }

  /** What the operator makes of such pods. */
  ghost predicate SeenComplaint(o: Oracle, release: string) {
    && CheckRollout(o.rolloutPods, release) == RolledOut
    && ExecPod(o.cache1, release).Some? && o.cache1.output.Some? && o.cache1.output != Some("")
  }

  ghost predicate SeenBroken(o: Oracle, release: string) {
    CheckRollout(o.rolloutPods, release) == Broken || SeenComplaint(o, release)
  }

  lemma BrokenIsSeen(env: Oracle, w: World, o: Oracle)
    requires BrokenInputs(env, w, o)
    ensures SeenBroken(o, ReleaseId(w.site.spec))
  {
    hide FaultFree, SameInputs, ReleaseId;
    Pods.RolloutFromPods(o.rolloutPods, ReleaseId(w.site.spec));
    Pods.CommandRuns(o.cache1, ReleaseId(w.site.spec));
  }

  /** The reason put on record. */
  function Reason(o: Oracle, release: string): string {
    if CheckRollout(o.rolloutPods, release) == Broken then ERR_DEPLOYMENT_UPDATE_FAILED else ERR_CACHE
  }

  /** The operator has given up: the failure is recorded, the failsafe release is deployed, no update is in progress. */
  ghost predicate GivenUp(w: World) {
    && w.site.Is(CodeUpdateFailed)
    && w.deploy.Some? && w.deploy.value.ReleaseOf() == w.site.status.failsafe
    && w.site.meta.updateInProgress == None
    && w.site.status.conditions.dbUpdatesPending == Present(Unknown, "")
    && w.site.status.current == ReleaseId(w.site.spec)
  }

  // ------------------------------------------------------------------ the rank

  /** What is left to do after the failure. */
  ghost function Closing(env: Oracle, w: World): nat {
    Chores(env, w) + Weight(w.site.meta.updateInProgress != None, 1)
    + Weight(w.site.status.conditions.dbUpdatesPending != Present(Unknown, ""), 1) + Weight(!Hashed(env, w), 1)
  }

  /** Before the failure the site is on the way of any update. */
  ghost function StuckRank(env: Oracle, w: World): nat {
    if w.site.Is(CodeUpdateFailed) then Closing(env, w) else Rank(env, w, false)
  }

  lemma StuckRankBound(env: Oracle, w: World)
    ensures StuckRank(env, w) <= 26
  {
    hide Synced, Scaled, Listed, Scheduled, Claimed, Hashed, Distance, Roughness, SpecIncomplete;
  }

  /** A step that leaves the release and the failsafe release as they are. */
  ghost predicate StaysStuck(env: Oracle, w: World, next: World) {
    && StuckWorld(env, next) && ReleaseId(next.site.spec) == ReleaseId(w.site.spec)
    && next.site.status.failsafe == w.site.status.failsafe
    && (w.site.Is(CodeUpdateFailed) ==> next.site.Is(CodeUpdateFailed))
  }

  // ------------------------------------------------------------------ before the failure

  lemma StuckIsSteady(env: Oracle, w: World, o: Oracle)
    requires StuckWorld(env, w) && !w.site.Is(CodeUpdateFailed) && BrokenInputs(env, w, o)
    ensures SteadyWorld(env, w) && SteadyInputs(env, w, o, false) && Behind(w)
  {
    hide ReleaseId, Alive, FaultFree, SameInputs, CheckRollout, Complains;
  }

  lemma SteadyIsStuck(env: Oracle, w: World, next: World)
    requires StuckWorld(env, w) && !w.site.Is(CodeUpdateFailed) && StaysSteady(env, w, next)
    ensures StaysStuck(env, w, next) && !next.site.Is(CodeUpdateFailed)
  {
    hide ReleaseId, Alive;
  }

  /** Until the deployment is settled at the new release, a stuck update goes the way of any other. */
  lemma StepTowardsFailure(env: Oracle, w: World, o: Oracle)
    requires StuckWorld(env, w) && !w.site.Is(CodeUpdateFailed) && BrokenInputs(env, w, o)
    requires !Performable(env, w, false) || !Shaped(env, w)
    ensures
      var next := Reconciled(w, o).session.world;
      StaysStuck(env, w, next) && StuckRank(env, next) < StuckRank(env, w)
  {
    hide Reconciled, ReleaseId, StuckWorld, SteadyWorld, SteadyInputs, StaysSteady, StaysStuck, Performable, Shaped,
      Rank, Behind, Deployed, BrokenInputs, Closing;
    StuckIsSteady(env, w, o);
    if !Performable(env, w, false) {
      StepEarly(env, w, o, false);
    } else {
      StepUpgrade(env, w, o, false, false);
    }
    SteadyIsStuck(env, w, Reconciled(w, o).session.world);
  }

  // ------------------------------------------------------------------ the failure

  /** The deployment a rollback leaves. */
  function RolledBack(env: Oracle, w: World): Deployment
    requires w.deploy.Some?
  {
    Apply(SetHashes(w.deploy.value, EnvHashes(env)), w.site, w.site.status.failsafe, FixedConfig(env, w.site.spec))
  }

  function Failing(env: Oracle, w: World, reason: string): World
    requires w.deploy.Some?
  {
    var next := Provisioned(env, w, true);
    next.(deploy := Some(RolledBack(env, w)),
          site := next.site.(status := FailCode(ClaimedSession(env, w).site, reason).status))
  }

  /** A fault-free rollback leaves the deployment at the failsafe release. */
  lemma RollBackPath(env: Oracle, u: Session, o: Oracle)
    requires FaultFree(o) && SameInputs(env, o) && u.world.deploy.Some?
    ensures
      var e := Apply(u.world.deploy.value, u.site, u.site.status.failsafe, FixedConfig(env, u.site.spec));
      !RollbackRefused(u, o) && RollBack(u, o) == u.(world := u.world.(deploy := Some(e)), log := RollBack(u, o).log)
  {
    hide ReleaseId, Apply, FixedConfig, ConfigOf, SameInputs;
    ConfigPath(env, u, o);
    UpsertSucceeds(u.world.deploy,
      Apply(u.world.deploy.value, u.site, u.site.status.failsafe, FixedConfig(env, u.site.spec)));
  }

  lemma FailCodeFacts(env: Oracle, site: Site, d: Deployment, reason: string)
    ensures
      var f := FailCode(site, reason);
      && f == site.(status := f.status) && f.status.failsafe == site.status.failsafe
      && Apply(d, f, site.status.failsafe, FixedConfig(env, site.spec))
        == Apply(d, site, site.status.failsafe, FixedConfig(env, site.spec))
  {
    hide Apply;
    ApplyReadsLittle(d, site, FailCode(site, reason), site.status.failsafe, FixedConfig(env, site.spec));
  }

  /** The world a failed update leaves. */
  function Broke(env: Oracle, u: Session, reason: string): World
    requires u.world.deploy.Some?
  {
    u.world.(deploy := Some(Apply(u.world.deploy.value, u.site, u.site.status.failsafe, FixedConfig(env, u.site.spec))),
             site := u.world.site.(status := FailCode(u.site, reason).status))
  }

  /** A broken pod: the failure is recorded and the deployment rolled back. */
  lemma BrokenPodPath(env: Oracle, u: Session, o: Oracle)
    requires FaultFree(o) && SameInputs(env, o) && CheckRollout(o.rolloutPods, Rel(u)) == Broken && u.world.deploy.Some?
    ensures
      && FinishRollout(u, o).Stop? && FinishRollout(u, o).session.world == Broke(env, u, ERR_DEPLOYMENT_UPDATE_FAILED)
  {
    hide ReleaseId, Apply, FixedConfig, SameInputs, CheckRollout, RollBack, RollbackRefused, FailCode;
    var t := u.(site := FailCode(u.site, ERR_DEPLOYMENT_UPDATE_FAILED));
    FailCodeFacts(env, u.site, u.world.deploy.value, ERR_DEPLOYMENT_UPDATE_FAILED);
    RollBackPath(env, t, o);
  }

  /** A complaining cache clear: the deployment is rolled back and the failure recorded. */
  lemma ComplaintPath(env: Oracle, u: Session, o: Oracle)
    requires FaultFree(o) && SameInputs(env, o) && SeenComplaint(o, Rel(u)) && u.world.deploy.Some?
    ensures FinishRollout(u, o).Stop? && FinishRollout(u, o).session.world == Broke(env, u, ERR_CACHE)
  {
    hide ReleaseId, Apply, FixedConfig, SameInputs, CheckRollout, RollBack, FailCode, ExecPod;
    var t := ClearCaches(u, o);
    assert t == u.(log := t.log);
    RollBackPath(env, t, o);
  }

  /** With the deployment settled, the update fails either way. */
  lemma BreaksPath(env: Oracle, u: Session, o: Oracle)
    requires FaultFree(o) && SameInputs(env, o)
    requires SeenBroken(o, Rel(u))
    requires u.codeNeeded && u.site.meta.updateInProgress.Some? && !u.site.Is(CodeUpdateFailed) && u.world.deploy.Some?
    requires Apply(u.world.deploy.value, u.site, Rel(u), FixedConfig(env, u.site.spec)) == u.world.deploy.value
    ensures UpdateVersion(u, o).Stop? && UpdateVersion(u, o).session.world == Broke(env, u, Reason(o, Rel(u)))
  {
    hide ReleaseId, Apply, FixedConfig, ConfigOf, SameInputs, CheckRollout, FinishRollout, Broke;
    ConfigPath(env, u, o);
    UpsertSucceeds(u.world.deploy, u.world.deploy.value);
    if CheckRollout(o.rolloutPods, Rel(u)) == Broken {
      BrokenPodPath(env, u, o);
    } else {
      ComplaintPath(env, u, o);
    }
  }

  lemma Fails(env: Oracle, w: World, o: Oracle)
    requires StuckWorld(env, w) && !w.site.Is(CodeUpdateFailed) && BrokenInputs(env, w, o)
    requires Performable(env, w, false) && Shaped(env, w)
    ensures Reconciled(w, o).session.world == Failing(env, w, Reason(o, ReleaseId(w.site.spec)))
  {
    hide ToPerform, SpecIncomplete, Synced, ClaimedSession, Listed, SameInputs, ReleaseId, FixedSpec, Announced, Behind,
      Apply, SetHashes, WantsSchedule, Shaped, UpdateVersion, CheckRollout, FaultFree, FailCode, Complains, SeenBroken,
      Reason;
    StuckIsSteady(env, w, o);
    BrokenIsSeen(env, w, o);
    ToPerformPath(env, w, o, false);
    var u := ToPerform(w, o).session;
    ClaimedFacts(env, w);
    ClaimedUpdatable(env, w);
    ShapedMeansUpgraded(env, w);
    ApplyIgnoresClaim(env, w, u.world.deploy.value, ReleaseId(w.site.spec), FixedConfig(env, w.site.spec));
    ApplyIgnoresClaim(env, w, u.world.deploy.value, w.site.status.failsafe, FixedConfig(env, w.site.spec));
    BreaksPath(env, u, o);
  }

  /** The rolled-back deployment is at the failsafe release and keeps its hashes. */
  lemma RolledBackFacts(env: Oracle, w: World)
    requires w.deploy.Some? && w.deploy.value.created && !w.deploy.value.Debugging()
    ensures
      var e := RolledBack(env, w);
      e.created && !e.Debugging() && e.ReleaseOf() == w.site.status.failsafe && SetHashes(e, EnvHashes(env)) == e
  {
    hide Apply, SetHashes, ReleaseId, FixedConfig;
    var d, h := w.deploy.value, EnvHashes(env);
    var c := FixedConfig(env, w.site.spec);
    HashedKeeps(d, h);
    ApplyMarksRelease(SetHashes(d, h), w.site, w.site.status.failsafe, c);
    HashesCommuteWithApply(SetHashes(d, h), w.site, w.site.status.failsafe, c, h);
    HashesTwice(d, h);
  }

  lemma StepFails(env: Oracle, w: World, reason: string)
    requires StuckWorld(env, w) && !w.site.Is(CodeUpdateFailed) && Performable(env, w, false)
    ensures StaysStuck(env, w, Failing(env, w, reason)) && StuckRank(env, Failing(env, w, reason)) < StuckRank(env, w)
  {
    hide SpecIncomplete, Roughness, ReleaseId, Synced, ClaimedSession, Chores, WantsSchedule, Apply, SetHashes,
      FixedSpec, Listed, Scaled;
    ClaimedFacts(env, w);
    SyncedUnfailed(env, w);
    RolledBackFacts(env, w);
    ChoresAfterClaim(env, w, Failing(env, w, reason));
  }

  // ------------------------------------------------------------------ after the failure

  lemma StuckIsManaged(env: Oracle, w: World, o: Oracle)
    requires StuckWorld(env, w)
    ensures Managed(env, w) && NothingNew(w, o)
  {
    AliveIsManaged(env, w, o);
  }

  lemma TidierIsStuck(env: Oracle, w: World, next: World)
    requires StuckWorld(env, w) && w.site.Is(CodeUpdateFailed) && Tidier(env, w, next)
    ensures StaysStuck(env, w, next) && StuckRank(env, next) < StuckRank(env, w)
  {
    hide ReleaseId, Alive, Chores, SetHashes;
    TidierIsAlive(env, w, next);
  }

  /** What a tidy site with a failed update has left to write. */
  ghost predicate Closed(w: World) {
    w.site.meta.updateInProgress == None && w.site.status.conditions.dbUpdatesPending == Present(Unknown, "")
  }

  /** The world after the pending-updates condition became unknown. */
  function Unannounced(env: Oracle, w: World): World {
    ClaimedSession(env, w).world.(site := w.site.(status :=
      WithCondition(ClaimedSession(env, w).site, DBUpdatesPending, Present(Unknown, "")).status))
  }

  /** The next world of a tidy site with a failed update. */
  function Reclosed(env: Oracle, w: World): World
    requires w.deploy.Some?
  {
    if w.site.meta.updateInProgress.Some? then Remarked(env, w, false)
    else if w.site.status.conditions.dbUpdatesPending != Present(Unknown, "") then Unannounced(env, w)
    else if w.site.status.expectedReplicas != Some(WantedReplicas(env, w.site.spec)) then Rescaled(env, w)
    else Provisioned(env, w, true)
  }

  /** The writes that close a failed update. */
  lemma ClosesWorkflow(env: Oracle, w: World, o: Oracle)
    requires
      && StuckWorld(env, w) && w.site.Is(CodeUpdateFailed) && FaultFree(o) && SameInputs(env, o) && Tidy(env, w)
      && !Closed(w)
    ensures Reconciled(w, o).session.world == Reclosed(env, w)
  {
    hide ToAssess, SpecIncomplete, Synced, ClaimedSession, Listed, SameInputs, ReleaseId, FixedSpec, Assess;
    ToAssessPath(env, w, o);
    ClaimedFacts(env, w);
    AssessFailedPath(ClaimedSession(env, w), o);
  }

  lemma ClosedGoesOn(env: Oracle, w: World, o: Oracle)
    requires
      && StuckWorld(env, w) && w.site.Is(CodeUpdateFailed) && FaultFree(o) && SameInputs(env, o) && Tidy(env, w)
      && Closed(w)
    ensures ToEnsure(w, o) == Go(ClaimedSession(env, w))
  {
    hide ToAssess, SpecIncomplete, Synced, ClaimedSession, Listed, SameInputs, ReleaseId, FixedSpec, Assess;
    ToAssessPath(env, w, o);
    ClaimedFacts(env, w);
    AssessFailedPath(ClaimedSession(env, w), o);
  }

  /** A failed update is closed, and then only the resources other than the server are looked after. */
  lemma Closes(env: Oracle, w: World, o: Oracle)
    requires StuckWorld(env, w) && w.site.Is(CodeUpdateFailed) && FaultFree(o) && SameInputs(env, o) && Tidy(env, w)
    ensures Reconciled(w, o).session.world == Reclosed(env, w)
    ensures Closed(w) && Scaled(env, w) && Untouched(env, ClaimedSession(env, w), w.deploy.value) ==>
      Log(w, o) == ClaimedSession(env, w).log
  {
    hide ToEnsure, Tidy, ClaimedSession, SameInputs, ReleaseId, FixedSpec, SetHashes, Apply, WantsSchedule, Ensure,
      Perform, Untouched;
    if !Closed(w) {
      ClosesWorkflow(env, w, o);
    } else {
      var c := ClaimedSession(env, w);
      ClosedGoesOn(env, w, o);
      ClaimedFacts(env, w);
      EnsurePath(env, c, o);
      if Scaled(env, w) {
        PerformsNothing(Ensure(c, o).session, o);
      }
    }
  }

  lemma PerformsNothing(u: Session, o: Oracle)
    requires u.site.Is(CodeUpdateFailed)
    ensures Perform(u, o).session == u
  {
  }

  lemma ReclosedStaysStuck(env: Oracle, w: World)
    requires StuckWorld(env, w) && w.site.Is(CodeUpdateFailed) && Tidy(env, w)
    ensures StaysStuck(env, w, Reclosed(env, w))
  {
    hide SpecIncomplete, ReleaseId, Synced, ClaimedSession, WantsSchedule, SetHashes, FixedSpec, Listed;
    ClaimedFacts(env, w);
    HashedKeeps(w.deploy.value, EnvHashes(env));
  }

  lemma RemarkedAfterClaim(env: Oracle, w: World)
    requires Synced(env, w)
    ensures AfterClaim(env, w, Remarked(env, w, false))
  {
    hide SpecIncomplete, ReleaseId, Synced, ClaimedSession, WantsSchedule, SetHashes, Listed;
    ClaimedFacts(env, w);
    SyncedUnfailed(env, w);
  }

  lemma UnannouncedAfterClaim(env: Oracle, w: World)
    requires Synced(env, w)
    ensures AfterClaim(env, w, Unannounced(env, w))
  {
    hide SpecIncomplete, ReleaseId, Synced, ClaimedSession, WantsSchedule, SetHashes, Listed;
    ClaimedFacts(env, w);
    SyncedUnfailed(env, w);
  }

  lemma RescaledAfterClaim(env: Oracle, w: World)
    requires !Scaled(env, w) && Synced(env, w)
    ensures AfterClaim(env, w, Rescaled(env, w))
  {
    hide SpecIncomplete, ReleaseId, Synced, ClaimedSession, WantsSchedule, SetHashes, Listed;
    ClaimedFacts(env, w);
    SyncedUnfailed(env, w);
  }

  lemma ProvisionedAfterClaim(env: Oracle, w: World)
    requires w.deploy.Some? && Synced(env, w)
    ensures AfterClaim(env, w, Provisioned(env, w, true))
  {
    hide SpecIncomplete, ReleaseId, Synced, ClaimedSession, WantsSchedule, SetHashes, Listed;
    ClaimedFacts(env, w);
    SyncedUnfailed(env, w);
  }

  lemma ReclosedAfterClaim(env: Oracle, w: World)
    requires w.deploy.Some? && Tidy(env, w)
    ensures AfterClaim(env, w, Reclosed(env, w))
  {
    hide SpecIncomplete, Synced, Listed, Remarked, Unannounced, Rescaled, Provisioned, AfterClaim;
    if w.site.meta.updateInProgress.Some? {
      RemarkedAfterClaim(env, w);
    } else if w.site.status.conditions.dbUpdatesPending != Present(Unknown, "") {
      UnannouncedAfterClaim(env, w);
    } else if !Scaled(env, w) {
      RescaledAfterClaim(env, w);
    } else {
      ProvisionedAfterClaim(env, w);
    }
  }

  lemma HashedFrame(env: Oracle, w: World, next: World)
    ensures next.deploy == w.deploy ==> Hashed(env, next) == Hashed(env, w)
  {
  }

  lemma ProvisionedIsHashed(env: Oracle, w: World)
    requires w.deploy.Some?
    ensures Hashed(env, Provisioned(env, w, true))
  {
    hide SetHashes, ClaimedSession, WantsSchedule;
    HashesTwice(w.deploy.value, EnvHashes(env));
  }

  /** What each of the four next worlds has done. */
  lemma ReclosedDoes(env: Oracle, w: World)
    requires w.deploy.Some?
    ensures
      var next := Reclosed(env, w);
      && (Closed(w) ==> Closed(next))
      && (w.site.meta.updateInProgress == None ==> next.site.meta.updateInProgress == None)
      && (w.site.meta.updateInProgress != None ==>
            && next.site.meta.updateInProgress == None
            && next.site.status.conditions.dbUpdatesPending == w.site.status.conditions.dbUpdatesPending)
      && (w.site.meta.updateInProgress == None && !Closed(w) ==> Closed(next))
      && (Closed(w) && !Scaled(env, w) ==> Scaled(env, next))
      && (Closed(w) && Scaled(env, w) ==> next.schedule == WantsSchedule(ClaimedSession(env, w).site))
      && (if Closed(w) && Scaled(env, w) then next == Provisioned(env, w, true) else next.deploy == w.deploy)
  {
    hide ReleaseId, ClaimedSession, WantsSchedule, Provided;
    ClaimedFacts(env, w);
  }

  lemma StepCloses(env: Oracle, w: World)
    requires StuckWorld(env, w) && w.site.Is(CodeUpdateFailed) && Tidy(env, w)
    ensures StaysStuck(env, w, Reclosed(env, w))
    ensures StuckRank(env, w) > 0 ==> StuckRank(env, Reclosed(env, w)) < StuckRank(env, w)
  {
    hide SpecIncomplete, ReleaseId, Synced, ClaimedSession, Chores, WantsSchedule, SetHashes, Listed, Scaled, Alive,
      AfterClaim, Hashed, Reclosed, Claimed, Provisioned;
    assert w.deploy.Some? by { StuckIsDeployed(env, w); }
    ReclosedStaysStuck(env, w);
    ReclosedAfterClaim(env, w);
    ReclosedDoes(env, w);
    ProvisionedIsHashed(env, w);
    assert Reclosed(env, w).deploy == w.deploy ==>
      Hashed(env, Reclosed(env, w)) == Hashed(env, w) by { HashedFrame(env, w, Reclosed(env, w)); }
    ChoresAfterClaim(env, w, Reclosed(env, w));
    if Claimed(env, w) && Scheduled(w) && Scaled(env, w) {
      NoChores(env, w);
    }
  }

  lemma StuckIsDeployed(env: Oracle, w: World)
    requires StuckWorld(env, w)
    ensures w.deploy.Some?
  {
  }

  lemma NoChores(env: Oracle, w: World)
    requires Tidy(env, w) && Claimed(env, w) && Scheduled(w) && Scaled(env, w)
    ensures Chores(env, w) == 0
  {
    hide ReleaseId, Synced, Scaled, Listed, WantsSchedule, SpecIncomplete;
  }

  // ------------------------------------------------------------------ rest

  lemma StuckRankZero(env: Oracle, w: World)
    requires StuckWorld(env, w) && StuckRank(env, w) == 0
    ensures GivenUp(w) && Tidy(env, w) && Claimed(env, w) && Scheduled(w) && Scaled(env, w) && Hashed(env, w)
  {
    hide ReleaseId, Alive, SpecIncomplete, WantsSchedule, SetHashes, Listed, Scaled, Claimed, Roughness, Deployed;
  }

  /** Once given up, a reconcile does nothing at all. */
  lemma StuckRests(env: Oracle, w: World, o: Oracle)
    requires StuckWorld(env, w) && StuckRank(env, w) == 0 && FaultFree(o) && SameInputs(env, o)
    ensures Reconciled(w, o).session.world == w && Log(w, o) == []
  {
    hide Reconciled, StuckRank, ReleaseId, SetHashes, WantsSchedule, Tidy, SameInputs, FaultFree, Apply, Log;
    StuckRankZero(env, w);
    ClaimedFacts(env, w);
    Closes(env, w, o);
  }

  /** Every fault-free reconcile of a stuck update lowers its rank, or finds it at zero and does nothing. */
  lemma StepLowersStuckRank(env: Oracle, w: World, o: Oracle)
    requires StuckWorld(env, w) && BrokenInputs(env, w, o)
    ensures
      var next := Reconciled(w, o).session.world;
      StaysStuck(env, w, next) && (StuckRank(env, next) < StuckRank(env, w) || (StuckRank(env, w) == 0 && next == w))
  {
    hide Reconciled, ReleaseId, StaysStuck, StuckRank, Alive, Tidy, Tidier, Performable, Shaped, Failing, Reclosed,
      FaultFree, SameInputs, CheckRollout, Complains, Reason;
    if !w.site.Is(CodeUpdateFailed) {
      if Performable(env, w, false) && Shaped(env, w) {
        Fails(env, w, o);
        StepFails(env, w, Reason(o, ReleaseId(w.site.spec)));
      } else {
        StepTowardsFailure(env, w, o);
      }
    } else if !Tidy(env, w) {
      assert Managed(env, w) && NothingNew(w, o) by { StuckIsManaged(env, w, o); }
      Housekeeps(env, w, o);
      TidierIsStuck(env, w, Reconciled(w, o).session.world);
    } else {
      Closes(env, w, o);
      StepCloses(env, w);
      if StuckRank(env, w) == 0 {
        StuckRests(env, w, o);
      }
    }
  }

  // ------------------------------------------------------------------ runs

  ghost predicate IsBrokenRun(env: Oracle, ws: seq<World>, os: seq<Oracle>) {
    && |ws| == |os| + 1
    && forall i :: 0 <= i < |os| ==> ws[i + 1] == After(ws[i], Log(ws[i], os[i])) && BrokenInputs(env, ws[i], os[i])
  }

  lemma {:induction false} StuckRankFalls(env: Oracle, ws: seq<World>, os: seq<Oracle>, i: nat)
    requires IsBrokenRun(env, ws, os) && StuckWorld(env, ws[0]) && i < |ws|
    ensures
      && StaysStuck(env, ws[0], ws[i])
      && (StuckRank(env, ws[i]) == 0 || StuckRank(env, ws[i]) + i <= StuckRank(env, ws[0]))
    decreases i
  {
    hide Log, StuckRank, StuckWorld, BrokenInputs, ReleaseId;
    if i > 0 {
      StuckRankFalls(env, ws, os, i - 1);
      var w, o := ws[i - 1], os[i - 1];
      assert BrokenInputs(env, w, o);
      WorldAfterLog(w, o);
      StepLowersStuckRank(env, w, o);
    }
  }

  /**
   * A failed update settles: from the 27th reconcile on, the failure is recorded, the deployment is back at the
   * failsafe release, which has not changed, no update is in progress, pending schema updates are unknown, and a
   * reconcile does nothing at all.
   */
  lemma FailedUpdateSettles(env: Oracle, ws: seq<World>, os: seq<Oracle>, i: nat)
    requires IsBrokenRun(env, ws, os) && StuckWorld(env, ws[0]) && 26 <= i < |os|
    ensures GivenUp(ws[i]) && ws[i].site.status.failsafe == ws[0].site.status.failsafe
    ensures ws[i + 1] == ws[i] && Log(ws[i], os[i]) == []
  {
    hide Log, StuckRank, StuckWorld, ReleaseId, FaultFree, SameInputs, CheckRollout, Complains;
    StuckRankFalls(env, ws, os, i);
    StuckRankBound(env, ws[0]);
    StuckRankZero(env, ws[i]);
    assert BrokenInputs(env, ws[i], os[i]);
    StuckRests(env, ws[i], os[i]);
    WorldAfterLog(ws[i], os[i]);
  }

  /** At every moment of such a run the pod can be broken in each of the three ways, whatever the site is doing. */
  lemma BrokenInputsExist(env: Oracle, w: World, p: Pod)
    requires Offers(env) && p.release == ReleaseId(w.site.spec)
    requires p.phase == Failed || p.phase == PhaseUnknown || (p.phase == Pending && p.age >= 600)
    ensures exists o :: BrokenInputs(env, w, o) && o.rolloutPods == Some([p])
    ensures exists o :: BrokenInputs(env, w, o) && Complains(o, ReleaseId(w.site.spec))
  {
    hide ReleaseId, CheckRollout, Smooth, FaultFree, SameInputs;
    var release := ReleaseId(w.site.spec);
    var o := Smooth(env, release, false).(rolloutPods := Some([p]));
    SmoothButForPods(env, release, o.rolloutPods);
    assert Pods.FirstOf([p], release, p) by { OnlyPod(p); }
    assert BrokenInputs(env, w, o);
    ComplaintExists(env, w);
  }

  lemma OnlyPod(p: Pod)
    ensures Pods.FirstOf([p], p.release, p)
  {
    assert [p][0] == p;
  }

  lemma ComplaintExists(env: Oracle, w: World)
    requires Offers(env)
    ensures exists o :: BrokenInputs(env, w, o) && Complains(o, ReleaseId(w.site.spec))
  {
    hide ReleaseId;
    var release := ReleaseId(w.site.spec);
    var p := Pod(release, Running, 0);
    var o := Smooth(env, release, false).(cache1 := Obeys([p], "warning"));
    OnlyPod(p);
    assert Pods.RunsIn(o.cache1, release, p) && Pods.CameUp(p);
    assert BrokenInputs(env, w, o);
  }

  lemma SmoothButForPods(env: Oracle, release: string, pods: Option<seq<Pod>>)
    requires Offers(env)
    ensures
      var o := Smooth(env, release, false).(rolloutPods := pods);
      FaultFree(o) && SameInputs(env, o)
  {
  }

  // ------------------------------------------------------------------ recovery

  /** The user asks for another version and nothing else. */
  function WithVersion(w: World, versionName: string, releaseSpec: string): World {
    w.(site := w.site.(spec := w.site.spec.(versionName := versionName, releaseSpec := releaseSpec)))
  }

  lemma RestoredIsCalm(env: Oracle, w: World, versionName: string, releaseSpec: string)
    requires Alive(env, w) && w.site.name != "" && releaseSpec != ""
    requires w.site.status.failsafe == versionName + "-" + releaseSpec
    ensures CalmWorld(env, WithVersion(w, versionName, releaseSpec))
  {
  }

  /**
   * Recovery: when the spec of a site, whatever its failed update left behind, asks for the failsafe release again,
   * fault-free reconciles settle at that release without a failure condition.
   */
  lemma RecoversAtFailsafe(env: Oracle, w: World, versionName: string, releaseSpec: string,
      ws: seq<World>, os: seq<Oracle>, pending: seq<bool>, i: nat)
    requires StuckWorld(env, w) && releaseSpec != "" && w.site.status.failsafe == versionName + "-" + releaseSpec
    requires IsCalmRun(env, ws, os, pending) && ws[0] == WithVersion(w, versionName, releaseSpec)
    requires 26 <= i < |os|
    ensures AtRest(ws[i]) && ws[i + 1] == ws[i] && forall e :: e in Log(ws[i], os[i]) ==> e.Executed?
  {
    hide Log, Alive, CalmWorld, CalmInputs, PendingFollows, ReleaseId;
    RestoredIsCalm(env, w, versionName, releaseSpec);
    ConvergesWithin26(env, ws, os, pending, i);
  }
}
