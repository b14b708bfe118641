// A new site: its resources appear, it waits for its server and to be filled, and then it comes to rest.
module NewSites {
  import opened Kube
  import opened DrupalSites
  import opened Deployments
  import opened DeploymentLaws
  import opened Workflow
  import opened Calm
  import opened Housekeeping
  import opened Convergence

  /** The site is filled, and its server answers. */
  ghost predicate Up(w: World) {
    w.site.Is(Initialized) && Serving(w)
  }

  /** A managed site with its database and without an update; it may have no deployment at all. */
  ghost predicate Young(env: Oracle, w: World) {
    && Managed(env, w) && w.site.name != "" && w.dbod
    && !w.site.Is(CodeUpdateFailed) && !w.site.Is(DBUpdatesFailed)
    && w.site.meta.updateInProgress == None
    && (w.deploy.Some? ==> w.deploy.value.created && !w.deploy.value.Debugging())
    && (w.deploy.None? ==> w.readyReplicas == 0)
  }

  /** A young site that is still to be filled, or still to be served. */
  ghost predicate NewWorld(env: Oracle, w: World) {
    Young(env, w) && !Up(w)
  }

  /** No call fails. */
  ghost predicate Works(env: Oracle, o: Oracle) {
    FaultFree(o) && SameInputs(env, o) && o.jobCall == SUCCEEDS
  }

  /** And neither the pod nor a job says, for the first time, that the site is filled. */
  ghost predicate NewInputs(env: Oracle, w: World, o: Oracle) {
    Works(env, o) && NothingNew(w, o)
  }

  /** The session after the pod was asked and the primary site claimed. */
  function NewSession(env: Oracle, w: World, o: Oracle): Session {
    ClaimedFrom(env, AskInstalled(Begin(w), o))
  }

  lemma NewSessionIsClaimed(env: Oracle, w: World, o: Oracle)
    ensures NewSession(env, w, o) == ClaimedSession(env, w).(log := NewSession(env, w, o).log)
    ensures Claimed(env, w) ==> forall e :: e in NewSession(env, w, o).log ==> e.Executed?
    ensures w.deploy.None? || w.readyReplicas == 0 ==> NewSession(env, w, o) == ClaimedSession(env, w)
  {
    hide ClaimedFrom, AskInstalled;
    AskingIsQuiet(w, o);
    ClaimIgnoresLog(env, w, AskInstalled(Begin(w), o).log);
  }

  // ------------------------------------------------------------------ the rank

  /** The site is filled, or the job that fills it exists. */
  predicate Filling(w: World) {
    w.site.Is(Initialized) || JobFor(w.site.spec) in w.jobs
  }

  /** The jobs once the site is seen to. */
  function JobsOf(site: Site, jobs: set<Job>): set<Job> {
    if site.Is(Initialized) then jobs else jobs + {JobFor(site.spec)}
  }

  ghost function NewRank(env: Oracle, w: World): nat {
    Chores(env, w) + Roughness(env, w) + Weight(!Restored(w), 1) + Weight(!Filling(w), 1)
  }

  lemma NewRankBound(env: Oracle, w: World)
    ensures NewRank(env, w) <= 14
  {
    hide Synced, Scaled, Listed, Scheduled, Claimed, Hashed, Shaped, SpecIncomplete, ReleaseId, JobFor;
  }

  lemma TidierIsNew(env: Oracle, w: World, next: World)
    requires NewWorld(env, w) && Tidier(env, w, next)
    ensures NewWorld(env, next) && NewRank(env, next) < NewRank(env, w)
  {
    hide ReleaseId, FixedSpec, Chores, Roughness, JobFor;
    RoughnessFrame(env, w, next);
  }

  // ------------------------------------------------------------------ the path of a reconcile

  /** What the claim leaves of a new site. */
  lemma ClaimedIsNew(env: Oracle, w: World)
    requires NewWorld(env, w) && Synced(env, w)
    ensures
      var c := ClaimedSession(env, w);
      && !Updatable(c.site) && !c.site.Is(CodeUpdateFailed) && !SiteStandsBack(c.site)
      && (c.site.Is(Initialized) <==> w.site.Is(Initialized))
      && Rel(c) == ReleaseId(w.site.spec) && c.world.dbod && c.world.deploy == w.deploy && c.world.jobs == w.jobs
      && c.site.status.current == ReleaseId(w.site.spec) && c.site.status.failsafe == w.site.status.failsafe
      && !c.site.Is(DBUpdatesFailed) && c.site.spec == w.site.spec
      && c.site.status.expectedReplicas == w.site.status.expectedReplicas
  {
    hide ReleaseId, ClaimedSession, FixedSpec;
    ClaimedFacts(env, w);
  }

  /** Nothing is assessed on a site that is not ready or not initialized. */
  lemma AssessNothing(s: Session, o: Oracle)
    requires !Updatable(s.site) && !s.site.Is(CodeUpdateFailed)
    ensures Assess(s, o) == Go(s)
  {
    hide ReleaseId;
  }

  /** The deployment as created, or as the ordinary update leaves it. */
  function Provided1(env: Oracle, w: World): Deployment {
    match w.deploy
    case None => Stored(Apply(BLANK, w.site, ReleaseId(w.site.spec), FixedConfig(env, w.site.spec)))
    case Some(d) => Apply(d, w.site, ReleaseId(w.site.spec), FixedConfig(env, w.site.spec))
  }

  lemma RecordNewPath(env: Oracle, w: World, s: Session, o: Oracle)
    requires FaultFree(o) && SameInputs(env, o) && s.world.dbod && !SiteStandsBack(s.site)
    requires s.world.deploy == w.deploy && s.site.spec == w.site.spec
    requires forall d: Deployment ::
      Apply(d, s.site, Rel(s), FixedConfig(env, s.site.spec))
        == Apply(d, w.site, ReleaseId(w.site.spec), FixedConfig(env, w.site.spec))
    ensures
      var r := EnsureUpsert(s, o);
      var t := Record(s, ByResources, r);
      !r.Refused? && t == s.(world := s.world.(deploy := Some(Provided1(env, w))), log := t.log)
      && (w.deploy == Some(Provided1(env, w)) ==> t.log == s.log)
  {
    hide ReleaseId, Apply, ConfigOf, FixedConfig, SameInputs;
    ConfigPath(env, s, o);
  }

  lemma JobPath(s: Session, o: Oracle)
    requires FaultFree(o) && o.jobCall == SUCCEEDS && s.world.dbod
    ensures
      var t := EnsureJob(s, o);
      && !JobFails(s, o) && t == s.(world := s.world.(jobs := JobsOf(s.site, s.world.jobs)), log := t.log)
      && (s.site.Is(Initialized) || JobFor(s.site.spec) in s.world.jobs ==> t.log == s.log)
  {
    hide JobFor;
  }

  /** The resources are all as they should be. */
  ghost predicate NothingToEnsure(env: Oracle, w: World, s: Session) {
    && w.deploy == Some(Provided1(env, w)) && SetHashes(Provided1(env, w), EnvHashes(env)) == Provided1(env, w)
    && (s.site.Is(Initialized) || JobFor(s.site.spec) in s.world.jobs) && s.world.schedule == WantsSchedule(s.site)
  }

  /** The resources of a new site. */
  lemma EnsureNewPath(env: Oracle, w: World, s: Session, o: Oracle)
    requires FaultFree(o) && SameInputs(env, o) && o.jobCall == SUCCEEDS
    requires s.world.dbod && !SiteStandsBack(s.site)
    requires s.world.deploy == w.deploy && s.site.spec == w.site.spec
    requires forall d: Deployment ::
      Apply(d, s.site, Rel(s), FixedConfig(env, s.site.spec))
        == Apply(d, w.site, ReleaseId(w.site.spec), FixedConfig(env, w.site.spec))
    requires s.site.status.expectedReplicas == Some(WantedReplicas(env, s.site.spec))
    ensures
      var t := Ensure(s, o).session;
      && Ensure(s, o).Go?
      && t == s.(world := s.world.(
           deploy := Some(SetHashes(Provided1(env, w), EnvHashes(env))),
           jobs := JobsOf(s.site, s.world.jobs),
           schedule := WantsSchedule(s.site)), log := t.log)
      && (NothingToEnsure(env, w, s) ==> t.log == s.log)
  {
    hide ReleaseId, Apply, SetHashes, EnsureUpsert, Record, EnsureJob, EnsureSchedule, JobFails, ScheduleFails,
      WantsSchedule, JobsOf, SyncReplicas, EnsureHashes, FixedConfig, SameInputs, TransientNotReady, SiteStandsBack,
      Provided1;
    SyncReplicasPath(env, s, o);
    RecordNewPath(env, w, s, o);
    var s1 := Record(s, ByResources, EnsureUpsert(s, o));
    JobPath(s1, o);
    var s2 := EnsureJob(s1, o);
    SchedulePath(s2, o);
    assert EnsureResources(s, o) == Go(EnsureSchedule(s2, o));
    EnsureHashesPath(env, EnsureSchedule(s2, o), o);
  }

  /** The session after the resources of a new site were ensured. */
  ghost predicate AtNewUpdate(env: Oracle, w: World, o: Oracle, u: Session) {
    var c := ClaimedSession(env, w);
    && u == c.(world := u.world, log := u.log)
    && u.world == c.world.(
         deploy := Some(SetHashes(Provided1(env, w), EnvHashes(env))),
         jobs := JobsOf(w.site, w.jobs),
         schedule := WantsSchedule(c.site))
    && (NothingToEnsure(env, w, c) ==> u.log == NewSession(env, w, o).log)
  }

  lemma ToEnsureNewPath(env: Oracle, w: World, o: Oracle)
    requires NewWorld(env, w) && NewInputs(env, w, o) && Tidy(env, w)
    ensures ToEnsure(w, o) == Go(NewSession(env, w, o))
  {
    hide ToAssess, Assess, ClaimedFrom, ClaimedSession, AskInstalled, FoundInitialized, Synced, Listed, SpecIncomplete,
      FaultFree, SameInputs, Updatable, FixedSpec, ReleaseId;
    ToAssessAsked(env, w, o);
    ClaimedIsNew(env, w);
    NewSessionIsClaimed(env, w, o);
    AssessNothing(NewSession(env, w, o), o);
  }

  lemma ScalesNew(env: Oracle, w: World, o: Oracle)
    requires NewWorld(env, w) && NewInputs(env, w, o) && Tidy(env, w) && !Scaled(env, w)
    ensures Reconciled(w, o).session.world == Rescaled(env, w)
  {
    hide ToEnsure, ClaimedSession, NewSession, Synced, Listed, SpecIncomplete, SameInputs, FixedSpec, ReleaseId,
      NewWorld, FoundInitialized;
    ToEnsureNewPath(env, w, o);
    ClaimedFacts(env, w);
    NewSessionIsClaimed(env, w, o);
    SyncReplicasPath(env, NewSession(env, w, o), o);
  }

  lemma ToPerformNewPath(env: Oracle, w: World, o: Oracle)
    requires NewWorld(env, w) && NewInputs(env, w, o) && Tidy(env, w) && Scaled(env, w)
    ensures ToPerform(w, o).Go? && AtNewUpdate(env, w, o, ToPerform(w, o).session)
  {
    hide ToEnsure, Ensure, ClaimedSession, NewSession, Synced, Listed, SpecIncomplete, SameInputs, FixedSpec, ReleaseId,
      Apply, SetHashes, WantsSchedule, JobFor, Provided1, FixedConfig, SiteStandsBack, Updatable, FaultFree,
      FoundInitialized;
    var c := NewSession(env, w, o);
    ToEnsureNewPath(env, w, o);
    ClaimedIsNew(env, w);
    NewSessionIsClaimed(env, w, o);
    forall d: Deployment
      ensures Apply(d, c.site, Rel(c), FixedConfig(env, c.site.spec))
        == Apply(d, w.site, ReleaseId(w.site.spec), FixedConfig(env, w.site.spec))
    {
      ApplyIgnoresClaim(env, w, d, ReleaseId(w.site.spec), FixedConfig(env, w.site.spec));
    }
    EnsureNewPath(env, w, c, o);
  }

  /** The world once the resources are there and the release is recorded as the failsafe one. */
  ghost function Installed(env: Oracle, w: World): World {
    var c := ClaimedSession(env, w);
    var next := c.world.(
      deploy := Some(SetHashes(Provided1(env, w), EnvHashes(env))),
      jobs := JobsOf(w.site, w.jobs),
      schedule := WantsSchedule(c.site));
    if Restored(w) then next
    else next.(site := next.site.(status := Advanced(c.site, env.resources.flags).status))
  }

  lemma AdvancesNew(env: Oracle, w: World, u: Session, o: Oracle)
    requires NewWorld(env, w) && Synced(env, w) && FaultFree(o) && SameInputs(env, o) && AtNewUpdate(env, w, o, u)
    ensures AdvanceFailsafe(u, o).session.world == Installed(env, w)
  {
    hide ReleaseId, ClaimedSession, NewSession, FixedSpec, SiteImage, SetHashes, Provided1, WantsSchedule, JobsOf;
    ClaimedIsNew(env, w);
  }

  lemma Installs(env: Oracle, w: World, o: Oracle)
    requires NewWorld(env, w) && NewInputs(env, w, o) && Tidy(env, w) && Scaled(env, w)
    ensures Reconciled(w, o).session.world == Installed(env, w)
  {
    hide ToPerform, ClaimedSession, Synced, Listed, SpecIncomplete, SameInputs, FixedSpec, ReleaseId, UpdateVersion,
      UpdateSchema, AdvanceFailsafe, Installed, FaultFree, SetHashes, Provided1, WantsSchedule, JobsOf;
    ToPerformNewPath(env, w, o);
    var u := ToPerform(w, o).session;
    ClaimedFacts(env, w);
    NoCodeUpdate(u, o);
    NoSchemaUpdate(u, o);
    AdvancesNew(env, w, u, o);
  }

  // ------------------------------------------------------------------ what the steps leave

  lemma StepScalesNew(env: Oracle, w: World)
    requires NewWorld(env, w) && Tidy(env, w) && !Scaled(env, w)
    ensures NewWorld(env, Rescaled(env, w)) && NewRank(env, Rescaled(env, w)) < NewRank(env, w)
  {
    hide SpecIncomplete, FixedSpec, Roughness, ReleaseId, Synced, ClaimedSession, Chores, WantsSchedule, JobsOf, Listed;
    ClaimedFacts(env, w);
    var next := Rescaled(env, w);
    SyncedUnfailed(env, w);
    ChoresAfterClaim(env, w, next);
    RoughnessFrame(env, w, next);
  }

  /** One pass of both writers settles the deployment, whether they found one or created it. */
  lemma ProvidedIsFullySettled(env: Oracle, w: World)
    requires NewWorld(env, w)
    ensures FullySettled(env, w.site, SetHashes(Provided1(env, w), EnvHashes(env)))
  {
    hide Apply, SetHashes, ReleaseId, FixedConfig, FixedSpec;
    var d, h, r, c := Base(w.deploy), EnvHashes(env), ReleaseId(w.site.spec), FixedConfig(env, w.site.spec);
    ApplyMarksRelease(d, w.site, r, c);
    assert Provided1(env, w) == Stored(Apply(d, w.site, r, c)) by { ProvidedIsStored(env, w); }
    WritersSettleTogether(d, w.site, r, c, h);
    HashedKeeps(Stored(Apply(d, w.site, r, c)), h);
  }

  lemma ProvidedIsStored(env: Oracle, w: World)
    requires w.deploy.Some? ==> w.deploy.value.created
    ensures Provided1(env, w) == Stored(Apply(Base(w.deploy), w.site, ReleaseId(w.site.spec),
      FixedConfig(env, w.site.spec)))
  {
    hide Apply, ReleaseId, FixedConfig;
    if w.deploy.Some? {
      ApplyMarksRelease(w.deploy.value, w.site, ReleaseId(w.site.spec), FixedConfig(env, w.site.spec));
    }
  }

  lemma InstalledIsNew(env: Oracle, w: World)
    requires NewWorld(env, w) && Synced(env, w)
    ensures
      var next := Installed(env, w);
      && NewWorld(env, next) && Roughness(env, next) == 0 && Restored(next) && Filling(next)
      && Chores(env, next) <= Chores(env, w)
      && (!Claimed(env, w) || !Scheduled(w) ==> Chores(env, next) < Chores(env, w))
  {
    hide SpecIncomplete, Roughness, ReleaseId, Synced, ClaimedSession, Chores, WantsSchedule, SetHashes, Provided1,
      FixedSpec, Settled, Listed, Scaled, SiteImage, JobFor;
    ClaimedFacts(env, w);
    ReleaseIdNonempty(w.site.spec);
    var next := Installed(env, w);
    ProvidedIsFullySettled(env, w);
    FullySettledIsSmooth(env, w, next);
    ChoresAfterClaim(env, w, next);
  }

  // ------------------------------------------------------------------ rest

  /** What a reconcile of a new site works towards. */
  ghost predicate Settling(env: Oracle, w: World) {
    Claimed(env, w) && Scheduled(w) && Hashed(env, w) && Shaped(env, w) && Restored(w) && Filling(w)
  }

  lemma NewRankZero(env: Oracle, w: World)
    requires Tidy(env, w) && Scaled(env, w)
    ensures NewRank(env, w) == 0 <==> Settling(env, w)
  {
    hide SpecIncomplete, Synced, Listed, Scaled, Claimed, Scheduled, Hashed, Shaped, Restored, Filling;
  }

  lemma RankZeroIsTidy(env: Oracle, w: World)
    requires NewRank(env, w) == 0
    ensures Tidy(env, w) && Scaled(env, w)
  {
    hide SpecIncomplete, Synced, Listed, Scaled, Claimed, Scheduled, Roughness, Restored, Filling;
  }

  /** A site that has everything is left as it is. */
  lemma InstalledAgain(env: Oracle, w: World)
    requires Settling(env, w)
    ensures Installed(env, w) == w
  {
    hide Apply, SetHashes, ReleaseId, FixedConfig, WantsSchedule, JobFor;
    ClaimedFacts(env, w);
  }

  /** Every reconcile of a new site brings it closer to rest, or finds it there and changes nothing. */
  lemma StepLowersNewRank(env: Oracle, w: World, o: Oracle)
    requires NewWorld(env, w) && NewInputs(env, w, o)
    ensures
      var next := Reconciled(w, o).session.world;
      && NewWorld(env, next) && (NewRank(env, next) < NewRank(env, w) || (NewRank(env, w) == 0 && next == w))
      && next.readyReplicas == w.readyReplicas && !SpecIncomplete(next.site)
  {
    hide Reconciled, NewWorld, NewRank, Installed, Rescaled, Synced, Listed, Scaled, SpecIncomplete, FaultFree,
      SameInputs;
    if !Tidy(env, w) {
      assert Managed(env, w) && NothingNew(w, o) && w.site.name != "" by { NewIsManaged(env, w, o); }
      Housekeeps(env, w, o);
      TidierIsNew(env, w, Reconciled(w, o).session.world);
    } else if !Scaled(env, w) {
      ScalesNew(env, w, o);
      StepScalesNew(env, w);
      RescaledKeeps(env, w);
    } else {
      Installs(env, w, o);
      StepInstalls(env, w);
      InstalledKeeps(env, w);
    }
  }

  lemma RescaledKeeps(env: Oracle, w: World)
    requires !SpecIncomplete(w.site)
    ensures Rescaled(env, w).readyReplicas == w.readyReplicas && !SpecIncomplete(Rescaled(env, w).site)
  {
    hide ClaimedSession;
    ClaimedFacts(env, w);
  }

  lemma InstalledKeeps(env: Oracle, w: World)
    requires !SpecIncomplete(w.site)
    ensures Installed(env, w).readyReplicas == w.readyReplicas && !SpecIncomplete(Installed(env, w).site)
  {
    hide ClaimedSession, SetHashes, Provided1, WantsSchedule, JobsOf, ReleaseId, SiteImage;
    ClaimedFacts(env, w);
  }

  lemma NewIsManaged(env: Oracle, w: World, o: Oracle)
    requires NewWorld(env, w) && NewInputs(env, w, o)
    ensures Managed(env, w) && NothingNew(w, o) && w.site.name != ""
  {
    hide FixedSpec, FaultFree, SameInputs;
  }

  lemma StepInstalls(env: Oracle, w: World)
    requires NewWorld(env, w) && Tidy(env, w) && Scaled(env, w)
    ensures
      var next := Installed(env, w);
      NewWorld(env, next) && (NewRank(env, next) < NewRank(env, w) || (NewRank(env, w) == 0 && next == w))
  {
    hide NewWorld, Installed, Synced, Listed, Scaled, SpecIncomplete, Claimed, Scheduled, Restored, Filling, Chores,
      Hashed, Shaped;
    InstalledIsNew(env, w);
    NewRankZero(env, w);
    if Settling(env, w) {
      InstalledAgain(env, w);
    }
  }

  lemma SettlingHasNothingToEnsure(env: Oracle, w: World)
    requires Settling(env, w)
    ensures ClaimedSession(env, w) == Begin(w) && NothingToEnsure(env, w, Begin(w))
  {
    hide Apply, SetHashes, ReleaseId, FixedConfig, WantsSchedule, JobsOf;
    ClaimedFacts(env, w);
  }

  /** At rest a reconcile writes nothing; it asks the pod whether the site is installed, if there is one. */
  lemma RestsNew(env: Oracle, w: World, o: Oracle)
    requires NewWorld(env, w) && NewInputs(env, w, o) && NewRank(env, w) == 0
    ensures forall e :: e in Log(w, o) ==> e.Executed?
    ensures w.readyReplicas == 0 ==> Log(w, o) == []
  {
    hide ToPerform, ClaimedSession, NewSession, Synced, Listed, Scaled, SpecIncomplete, SameInputs, FixedSpec,
      UpdateVersion, UpdateSchema, FaultFree, NothingToEnsure, Provided1, SetHashes, WantsSchedule, JobsOf, NewRank,
      ReleaseId, Shaped, Hashed, Filling, Scheduled, Claimed, FoundInitialized;
    RankZeroIsTidy(env, w);
    NewRankZero(env, w);
    SettlingHasNothingToEnsure(env, w);
    NewSessionIsClaimed(env, w, o);
    ToPerformNewPath(env, w, o);
    ClaimedIsNew(env, w);
    var u := ToPerform(w, o).session;
    NoCodeUpdate(u, o);
    NoSchemaUpdate(u, o);
  }

  // ------------------------------------------------------------------ the site is filled, or its server comes

  /** The reconcile that finds the site filled writes that down, or completes the spec first. */
  lemma FindsFilled(env: Oracle, w: World, o: Oracle)
    requires NewWorld(env, w) && Works(env, o) && !NothingNew(w, o)
    ensures Reconciled(w, o).session.world == if SpecIncomplete(w.site) then Completed(w, o) else Resynced(w, o)
  {
    hide InitSpec, ReleaseId, CompleteSpec, FoundInitialized, FoundReady, SpecIncomplete, AskInstalled, FixedSpec,
      Serving;
    InitSpecPath(env, w, o);
    AskingIsQuiet(w, o);
    CompletedSpec(env, w, o);
  }

  lemma FilledStatus(w: World, o: Oracle)
    requires !w.site.Is(CodeUpdateFailed) && !w.site.Is(DBUpdatesFailed) && FoundInitialized(Begin(w), o)
    ensures
      var st := NewStatus(Begin(w), o);
      st.conditions.initialized.Holds() && !st.conditions.codeUpdateFailed.Holds()
        && !st.conditions.dbUpdatesFailed.Holds()
  {
    hide ReleaseId, FoundReady, FoundInitialized;
  }

  lemma StepFills(env: Oracle, w: World, o: Oracle)
    requires NewWorld(env, w) && Works(env, o) && !NothingNew(w, o)
    ensures
      var next := Reconciled(w, o).session.world;
      && Young(env, next) && next.readyReplicas == w.readyReplicas
      && (!SpecIncomplete(w.site) ==> next.site.Is(Initialized))
  {
    hide Reconciled, CompleteSpec, FoundInitialized, FixedSpec, NewStatus, FaultFree, SpecIncomplete;
    FindsFilled(env, w, o);
    CompletedSpec(env, w, o);
    FilledStatus(w, o);
  }

  /** A young site that is filled and served is a calm one. */
  lemma UpIsCalm(env: Oracle, w: World)
    requires Young(env, w) && Up(w)
    ensures CalmWorld(env, w)
  {
    hide FixedSpec, ReleaseId;
  }

  /** The reconcile that finds a new site filled while its server is up makes it a calm one. */
  lemma BecomesCalm(env: Oracle, w: World, o: Oracle)
    requires NewWorld(env, w) && Works(env, o) && !NothingNew(w, o) && Serving(w) && !SpecIncomplete(w.site)
    ensures CalmWorld(env, Reconciled(w, o).session.world)
  {
    hide Reconciled, NewStatus, FaultFree, SameInputs, FixedSpec, FoundInitialized, CompleteSpec, SpecIncomplete,
      ReleaseId;
    StepFills(env, w, o);
    FindsFilled(env, w, o);
    UpIsCalm(env, Reconciled(w, o).session.world);
  }

  // ------------------------------------------------------------------ runs

  /** The deployment controller reports how many replicas of a deployment are ready. */
  function Answering(w: World, replicas: nat): World {
    if w.deploy.None? then w else w.(readyReplicas := replicas)
  }

  /** Reconciles without faults, that find the site filled sooner or later; its server may come and go in between. */
  ghost predicate IsNewRun(env: Oracle, ws: seq<World>, os: seq<Oracle>) {
    && |ws| == |os| + 1
    && forall i :: 0 <= i < |os| ==>
         && ws[i + 1] == Answering(After(ws[i], Log(ws[i], os[i])), ws[i + 1].readyReplicas)
         && Works(env, os[i])
  }

  /** Between two worlds of a run the server neither comes nor goes, and nothing is found to have filled the site. */
  ghost predicate Quiet(ws: seq<World>, os: seq<Oracle>, from: nat, to: nat)
    requires from <= to <= |os| < |ws|
  {
    forall k :: from <= k < to ==> ws[k + 1].readyReplicas == ws[k].readyReplicas && NothingNew(ws[k], os[k])
  }

  /** Before a world of a run the site was never filled and served at once. */
  ghost predicate NotUpBefore(ws: seq<World>, i: nat)
    requires i <= |ws|
  {
    forall k :: 0 <= k < i ==> !Up(ws[k])
  }

  lemma AnsweringIsYoung(env: Oracle, w: World, replicas: nat)
    requires Young(env, w)
    ensures Young(env, Answering(w, replicas))
  {
    hide FixedSpec;
  }

  lemma NewStep(env: Oracle, ws: seq<World>, os: seq<Oracle>, i: nat)
    requires IsNewRun(env, ws, os) && i < |os| && NewWorld(env, ws[i])
    ensures Young(env, ws[i + 1])
  {
    hide Log, Reconciled, NewRank, Young, FaultFree, SameInputs, SpecIncomplete, NothingNew, Up;
    var w, o := ws[i], os[i];
    assert Works(env, o);
    WorldAfterLog(w, o);
    if NothingNew(w, o) {
      StepLowersNewRank(env, w, o);
    } else {
      StepFills(env, w, o);
    }
    AnsweringIsYoung(env, After(w, Log(w, o)), ws[i + 1].readyReplicas);
  }

  lemma QuietStep(env: Oracle, ws: seq<World>, os: seq<Oracle>, i: nat)
    requires IsNewRun(env, ws, os) && i < |os| && NewWorld(env, ws[i])
    requires ws[i + 1].readyReplicas == ws[i].readyReplicas && NothingNew(ws[i], os[i])
    ensures NewRank(env, ws[i + 1]) < NewRank(env, ws[i]) || (NewRank(env, ws[i]) == 0 && ws[i + 1] == ws[i])
  {
    hide Log, Reconciled, NewRank, NewWorld, FaultFree, SameInputs, SpecIncomplete, NothingNew;
    assert Works(env, os[i]);
    WorldAfterLog(ws[i], os[i]);
    StepLowersNewRank(env, ws[i], os[i]);
  }

  lemma {:induction false} StaysYoung(env: Oracle, ws: seq<World>, os: seq<Oracle>, i: nat)
    requires IsNewRun(env, ws, os) && Young(env, ws[0]) && i < |ws| && NotUpBefore(ws, i)
    ensures Young(env, ws[i])
    decreases i
  {
    hide Log, Young, Works, Up;
    if i > 0 {
      StaysYoung(env, ws, os, i - 1);
      NewStep(env, ws, os, i - 1);
    }
  }

  lemma {:induction false} NewRankFalls(env: Oracle, ws: seq<World>, os: seq<Oracle>, from: nat, i: nat)
    requires IsNewRun(env, ws, os) && Young(env, ws[0]) && from <= i < |ws| && NotUpBefore(ws, i)
    requires Quiet(ws, os, from, i)
    ensures NewRank(env, ws[i]) == 0 || NewRank(env, ws[i]) + i <= NewRank(env, ws[from]) + from
    decreases i
  {
    hide Log, Young, Works, Up, NewRank, NothingNew;
    if i > from {
      NewRankFalls(env, ws, os, from, i - 1);
      StaysYoung(env, ws, os, i - 1);
      QuietStep(env, ws, os, i - 1);
    }
  }

  /** A new site that has everything a reconcile can give it, and waits for its server or to be filled. */
  ghost predicate Equipped(env: Oracle, w: World) {
    && Tidy(env, w) && Scaled(env, w) && Settling(env, w)
    && w.deploy.Some? && FullySettled(env, w.site, w.deploy.value)
    && w.site.status.current == ReleaseId(w.site.spec) && w.site.status.failsafe == ReleaseId(w.site.spec)
  }

  lemma RestIsEquipped(env: Oracle, w: World)
    requires NewWorld(env, w) && NewRank(env, w) == 0
    ensures Equipped(env, w)
  {
    hide Apply, SetHashes, ReleaseId, FixedConfig, FixedSpec, NewRank, Provided1, Chores, Claimed, Listed,
      SpecIncomplete, Scaled, JobsOf, ClaimedSession, Settled, FullySettled, Shaped, Hashed;
    RankZeroIsTidy(env, w);
    NewRankZero(env, w);
    InstalledAgain(env, w);
    ProvidedIsFullySettled(env, w);
  }

  lemma EquippedRuns(env: Oracle, w: World, o: Oracle)
    requires Equipped(env, w) && Works(env, o)
    ensures RunsAsAllowed(env, w)
  {
    hide Apply, SetHashes, ReleaseId, Settled, Claimed, Listed, Synced, SpecIncomplete, RunsAsAllowed, Scheduled,
      Scaled, Shaped, Hashed, FaultFree;
    SettledRuns(env, w);
  }

  /**
   * Whatever a new site starts from, fourteen fault-free reconciles in which its server neither comes nor goes give it
   * its deployment, settled at the release of the spec, and the job that fills it; the release is recorded as current
   * and as failsafe, whether or not a server has answered; and the next reconcile changes nothing.
   */
  lemma NewSiteIsEquipped(env: Oracle, ws: seq<World>, os: seq<Oracle>, i: nat)
    requires IsNewRun(env, ws, os) && Young(env, ws[0]) && 14 <= i < |os| && NotUpBefore(ws, i + 1)
    requires Quiet(ws, os, i - 14, i) && NothingNew(ws[i], os[i])
    ensures Equipped(env, ws[i]) && RunsAsAllowed(env, ws[i]) && After(ws[i], Log(ws[i], os[i])) == ws[i]
    ensures forall e :: e in Log(ws[i], os[i]) ==> e.Executed?
    ensures ws[i].readyReplicas == 0 ==> Log(ws[i], os[i]) == []
  {
    hide Log, Reconciled, Young, Works, NewRank, Equipped, SpecIncomplete, NothingNew, Up, RunsAsAllowed;
    NewRankFalls(env, ws, os, i - 14, i);
    NewRankBound(env, ws[i - 14]);
    StaysYoung(env, ws, os, i);
    assert Works(env, os[i]);
    RestIsEquipped(env, ws[i]);
    EquippedRuns(env, ws[i], os[i]);
    RestsNew(env, ws[i], os[i]);
    StepLowersNewRank(env, ws[i], os[i]);
    WorldAfterLog(ws[i], os[i]);
  }

  /**
   * A blocked project is at rest with nothing running: once its server has gone, or if it never had one, fourteen
   * fault-free reconciles leave the deployment of every site scaled to no replicas, and nothing more to do.
   */
  lemma BlockedSiteRests(env: Oracle, ws: seq<World>, os: seq<Oracle>, i: nat)
    requires env.namespace == NamespaceFound(true, true)
    requires IsNewRun(env, ws, os) && Young(env, ws[0]) && 14 <= i < |os| && NotUpBefore(ws, i + 1)
    requires Quiet(ws, os, i - 14, i) && NothingNew(ws[i], os[i])
    ensures ws[i].deploy.Some? && ws[i].deploy.value.replicas == 0 && ws[i].site.status.expectedReplicas == Some(0)
    ensures After(ws[i], Log(ws[i], os[i])) == ws[i] && forall e :: e in Log(ws[i], os[i]) ==> e.Executed?
  {
    hide Log, Young, Works, Equipped, NothingNew, Up;
    NewSiteIsEquipped(env, ws, os, i);
  }

  /**
   * A new site ends up like any other: in whichever order it is filled and served, from the first time it is both, it
   * is at rest within 26 reconciles.
   */
  lemma NewSiteConverges(
    env: Oracle, ws: seq<World>, os: seq<Oracle>,
    calm: seq<World>, calmInputs: seq<Oracle>, pending: seq<bool>, i: nat)
    requires IsNewRun(env, ws, os) && Young(env, ws[0]) && NotUpBefore(ws, |os|) && Up(ws[|os|])
    requires IsCalmRun(env, calm, calmInputs, pending) && calm[0] == ws[|os|] && 26 <= i < |calmInputs|
    ensures AtRest(calm[i]) && calm[i + 1] == calm[i] && forall e :: e in Log(calm[i], calmInputs[i]) ==> e.Executed?
    ensures RunsAsAllowed(env, calm[i])
  {
    hide Log, Young, CalmWorld, CalmInputs, PendingFollows, Works, AtRest, Up, RunsAsAllowed;
    StaysYoung(env, ws, os, |os|);
    UpIsCalm(env, ws[|os|]);
    ConvergesWithin26(env, calm, calmInputs, pending, i);
  }

  // ------------------------------------------------------------------ such runs exist

  /** A reconcile in which everything works and nothing has filled the site. */
  function Early(env: Oracle): Oracle {
    Smooth(env, "", false).(
      jobCall := SUCCEEDS, checkInstalled := Exec(None, None), cloneJobDone := false, easystartDone := false)
  }

  lemma EarlyIsNew(env: Oracle, w: World)
    requires Offers(env)
    ensures NewInputs(env, w, Early(env))
    ensures Works(env, Early(env).(easystartDone := true))
    ensures w.site.Is(Initialized) || !NothingNew(w, Early(env).(easystartDone := true))
  {
    hide ReleaseId;
  }

  /** From every world there are quiet runs of every length. */
  lemma {:induction false} NewRunExists(env: Oracle, w: World, n: nat)
    requires Offers(env)
    ensures exists ws, os :: IsNewRun(env, ws, os) && |os| == n && ws[0] == w && Quiet(ws, os, 0, n)
    decreases n
  {
    hide Log, Works, Early, NothingNew;
    if n == 0 {
      assert IsNewRun(env, [w], []) && Quiet([w], [], 0, 0);
    } else {
      NewRunExists(env, w, n - 1);
      var ws: seq<World>, os: seq<Oracle> :|
        IsNewRun(env, ws, os) && |os| == n - 1 && ws[0] == w && Quiet(ws, os, 0, n - 1);
      EarlyIsNew(env, ws[n - 1]);
      LongerNewRun(env, ws, os, Early(env));
    }
  }

  lemma LongerNewRun(env: Oracle, ws: seq<World>, os: seq<Oracle>, o: Oracle)
    requires IsNewRun(env, ws, os) && NewInputs(env, ws[|os|], o) && Quiet(ws, os, 0, |os|)
    ensures
      var vs := ws + [Answering(After(ws[|os|], Log(ws[|os|], o)), ws[|os|].readyReplicas)];
      IsNewRun(env, vs, os + [o]) && Quiet(vs, os + [o], 0, |os| + 1)
  {
    hide Log, Works, NothingNew, After;
    ReconcilesKeepReplicas(ws[|os|], Log(ws[|os|], o));
  }

  /** No event of a reconcile changes how many replicas are ready. */
  lemma {:induction false} ReconcilesKeepReplicas(w: World, log: seq<Event>)
    ensures After(w, log).readyReplicas == w.readyReplicas
    decreases |log|
  {
    if log != [] {
      ReconcilesKeepReplicas(w, log[..|log| - 1]);
    }
  }
}
