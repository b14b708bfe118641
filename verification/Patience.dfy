// Convergence with patience: the pods of the new release may keep the update waiting for any number of reconciles.
module Patience {
  import opened DrupalSites
  import opened Deployments
  import opened DeploymentLaws
  import opened Workflow
  import Pods
  import opened Calm
  import opened Housekeeping
  import opened Convergence

  /** The release is deployed and not verified, and its pod is not there yet, or young and pending. */
  ghost predicate Waits(w: World, o: Oracle) {
    Behind(w) && Deployed(w) && Pods.WaitingPods(o.rolloutPods, ReleaseId(w.site.spec))
  }

  /**
   * A reconcile without faults, in which the pods of the deployed release run unless the update still waits for them.
   */
  ghost predicate PatientInputs(env: Oracle, w: World, o: Oracle, pending: bool) {
    && FaultFree(o) && SameInputs(env, o)
    && (Deployed(w) && !Waits(w, o) ==> PodsUp(o, ReleaseId(w.site.spec)) && Answers(o, pending))
  }

  /** The world after a reconcile that waits: the claim is stored, and nothing else is new. */
  function Waited(env: Oracle, w: World): World
    requires w.deploy.Some?
  {
    var next := Provisioned(env, w, true);
    next.(site := next.site.(status := ClaimedSession(env, w).site.status))
  }

  /** A code update of a settled deployment that waits for its pod ends without an error. */
  lemma WaitingPath(env: Oracle, u: Session, o: Oracle)
    requires FaultFree(o) && SameInputs(env, o)
    requires u.codeNeeded && u.site.meta.updateInProgress.Some? && !u.site.Is(CodeUpdateFailed) && u.world.deploy.Some?
    requires Apply(u.world.deploy.value, u.site, Rel(u), FixedConfig(env, u.site.spec)) == u.world.deploy.value
    requires CheckRollout(o.rolloutPods, Rel(u)) == Waiting
    ensures
      var f := UpdateVersion(u, o);
      f.Stop? && f.outcome == Finished && f.session.world == u.world.(site := u.world.site.(status := u.site.status))
  {
    hide ReleaseId, Apply, FixedConfig, ConfigOf, SameInputs, CheckRollout;
    ConfigPath(env, u, o);
    UpsertSucceeds(u.world.deploy, u.world.deploy.value);
  }

  lemma WaitsForPod(env: Oracle, w: World, o: Oracle, pending: bool)
    requires Performable(env, w, pending) && SteadyInputs(env, w, o, pending) && Shaped(env, w) && Waits(w, o)
    ensures Reconciled(w, o).session.world == Waited(env, w) && Reconciled(w, o).outcome == Finished
  {
    hide ToPerform, SpecIncomplete, ClaimedSession, Listed, SameInputs, PodsUp, ReleaseId, FixedSpec, Announced, Apply,
      SetHashes, WantsSchedule, Shaped, UpdateVersion, FaultFree, CheckRollout, Synced, Behind;
    ToPerformPath(env, w, o, pending);
    var u := ToPerform(w, o).session;
    ClaimedFacts(env, w);
    ClaimedUpdatable(env, w);
    ApplyIgnoresClaim(env, w, u.world.deploy.value, ReleaseId(w.site.spec), FixedConfig(env, w.site.spec));
    ShapedMeansUpgraded(env, w);
    Pods.RolloutFromPods(o.rolloutPods, Rel(u));
    WaitingPath(env, u, o);
  }

  /** Waiting adds nothing to what is left to do. */
  lemma StepWaits(env: Oracle, w: World, pending: bool)
    requires CalmWorld(env, w) && Performable(env, w, pending) && Behind(w) && Deployed(w)
    ensures CalmWorld(env, Waited(env, w)) && Deployed(Waited(env, w))
    ensures Rank(env, Waited(env, w), pending) <= Rank(env, w, pending)
  {
    hide SpecIncomplete, Roughness, ReleaseId, Synced, ClaimedSession, Chores, WantsSchedule, Apply, SetHashes,
      FixedSpec, Settled, Listed, Scaled, Distance;
    ClaimedFacts(env, w);
    var next := Waited(env, w);
    HashedKeeps(w.deploy.value, EnvHashes(env));
    HashedIsSmoother(env, w, next);
    SyncedUnfailed(env, w);
    ChoresAfterClaim(env, w, next);
    DistanceFrame(w, next, pending);
  }

  lemma PatientIsSteady(env: Oracle, w: World, o: Oracle, pending: bool)
    requires PatientInputs(env, w, o, pending)
    ensures SteadyInputs(env, w, o, pending)
    ensures Deployed(w) && !Waits(w, o) ==> CalmInputs(env, w, o, pending)
  {
    hide FaultFree, SameInputs, PodsUp, Checks, ReleaseId, CheckRollout;
  }

  /** The rank falls, or the reconcile waits and the rank does not rise, or it is at zero and nothing changes. */
  lemma StepPatiently(env: Oracle, w: World, o: Oracle, before: bool, after: bool)
    requires CalmWorld(env, w) && PatientInputs(env, w, o, before)
    requires PendingFollows(w, Log(w, o), Reconciled(w, o).session.world, before, after)
    ensures
      var next := Reconciled(w, o).session.world;
      || StepsForward(env, w, before, next, after)
      || (Waits(w, o) && CalmWorld(env, next) && Rank(env, next, after) <= Rank(env, w, before))
  {
    hide Reconciled, ReleaseId, CalmWorld, CalmInputs, SteadyInputs, PatientInputs, Performable, Behind, Rank, Shaped,
      RanUpdb, Deployed, StepsForward, Waited, CheckRollout;
    PatientIsSteady(env, w, o, before);
    PendingDrops(env, Reconciled(w, o).session.world);
    if !Performable(env, w, before) || (Behind(w) && !Shaped(env, w)) {
      StepSteady(env, w, o, before, after);
    } else if Waits(w, o) {
      WaitsForPod(env, w, o, before);
      StepWaits(env, w, before);
    } else {
      assert Deployed(w) by { LateIsDeployed(env, w, before); }
      StepLowersRank(env, w, o, before, after);
    }
  }

  lemma LateIsDeployed(env: Oracle, w: World, pending: bool)
    requires Performable(env, w, pending) && (!Behind(w) || Shaped(env, w))
    ensures Deployed(w)
  {
    hide ReleaseId, Shaped, SpecIncomplete, Synced, Listed, Scaled, FixedSpec;
    ShapedMeansUpgraded(env, w);
  }

  // ------------------------------------------------------------------ runs

  /**
   * Whole reconciles one after the other, without faults, in a constant environment but for pods that take their time.
   */
  ghost predicate IsPatientRun(env: Oracle, ws: seq<World>, os: seq<Oracle>, pending: seq<bool>) {
    && |ws| == |pending| == |os| + 1
    && forall i :: 0 <= i < |os| ==>
         && ws[i + 1] == After(ws[i], Log(ws[i], os[i]))
         && PatientInputs(env, ws[i], os[i], pending[i])
         && PendingFollows(ws[i], Log(ws[i], os[i]), ws[i + 1], pending[i], pending[i + 1])
  }

  /** How many of the first `i` reconciles had to wait. */
  ghost function WaitingSteps(ws: seq<World>, os: seq<Oracle>, i: nat): (n: nat)
    requires i <= |os| < |ws|
    ensures n <= i
  {
    if i == 0 then 0 else WaitingSteps(ws, os, i - 1) + if Waits(ws[i - 1], os[i - 1]) then 1 else 0
  }

  lemma {:induction false} RankFallsPatiently(env: Oracle, ws: seq<World>, os: seq<Oracle>, pending: seq<bool>, i: nat)
    requires IsPatientRun(env, ws, os, pending) && CalmWorld(env, ws[0]) && i < |ws|
    ensures CalmWorld(env, ws[i])
    ensures Rank(env, ws[i], pending[i]) == 0
      || Rank(env, ws[i], pending[i]) + i <= Rank(env, ws[0], pending[0]) + WaitingSteps(ws, os, i)
    decreases i
  {
    hide Log, Rank, CalmWorld, PatientInputs, PendingFollows, Waits;
    if i > 0 {
      RankFallsPatiently(env, ws, os, pending, i - 1);
      var w, o := ws[i - 1], os[i - 1];
      assert PatientInputs(env, w, o, pending[i - 1]);
      WorldAfterLog(w, o);
      StepPatiently(env, w, o, pending[i - 1], pending[i]);
    }
  }

  /** A verified site does not wait. */
  lemma RestNeverWaits(env: Oracle, w: World, o: Oracle, pending: bool)
    requires CalmWorld(env, w) && Rank(env, w, pending) == 0
    ensures !Waits(w, o) && Deployed(w) && !pending
  {
    hide Rank, ReleaseId, CheckRollout;
    RankZero(env, w, pending);
  }

  /**
   * However long the pods of the new release take, the update comes to rest: not counting the reconciles that only wait
   * for a pod, from the 27th on failsafe, current and deployed release are the release of the spec and a reconcile
   * writes nothing.
   */
  lemma ConvergesPatiently(env: Oracle, ws: seq<World>, os: seq<Oracle>, pending: seq<bool>, i: nat)
    requires IsPatientRun(env, ws, os, pending) && CalmWorld(env, ws[0]) && i < |os|
    requires i - WaitingSteps(ws, os, i) >= 26
    ensures AtRest(ws[i]) && ws[i + 1] == ws[i] && forall e :: e in Log(ws[i], os[i]) ==> e.Executed?
    ensures RunsAsAllowed(env, ws[i])
  {
    hide Log, CalmWorld, PatientInputs, PendingFollows, Chores, Distance, Roughness, Waits, RunsAsAllowed;
    RankFallsPatiently(env, ws, os, pending, i);
    assert PatientInputs(env, ws[i], os[i], pending[i]);
    RestNeverWaits(env, ws[i], os[i], pending[i]);
    PatientIsSteady(env, ws[i], os[i], pending[i]);
    RankZero(env, ws[i], pending[i]);
    Rests(env, ws[i], os[i]);
    RestRuns(env, ws[i], os[i]);
    WorldAfterLog(ws[i], os[i]);
  }
}
