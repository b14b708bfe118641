// Reconciles without faults in a constant environment: which stage each one reaches.
module Calm {
  import opened Kube
  import opened DrupalSites
  import opened Deployments
  import opened DeploymentLaws
  import opened Workflow

  // ------------------------------------------------------------------ the environment

  /** No call fails. */
  ghost predicate FaultFree(o: Oracle) {
    && !o.siteReadFails && !o.configReadFails && o.specValid && !o.readyReadFails && !o.codeReadFails
    && !o.dbod0Fails && !o.dbod1Fails && !o.dbod2Fails && !o.dbod3Fails
    && !o.overrideReadFails && !o.otherResourcesFail && !o.ensureReadFails
    && o.ensureCall == SUCCEEDS && o.scheduleCall == SUCCEEDS && o.hashCall == SUCCEEDS
    && o.updateCall == SUCCEEDS && o.rollbackCall == SUCCEEDS
    && o.siteWrite == Accepted && o.configWrite == Accepted
  }

  /** The project is blocked: its namespace has both annotations that say so. */
  predicate Blocked(env: Oracle) {
    env.namespace == NamespaceFound(true, true)
  }

  predicate Unblocked(env: Oracle) {
    env.namespace == NamespaceFound(false, false)
  }

  /**
   * What a reconcile reads from outside the world stays the same: the project is blocked or not, the lists are there.
   */
  ghost predicate SameInputs(env: Oracle, o: Oracle) {
    && o.clone == env.clone && o.webhookURL == env.webhookURL && o.resources == env.resources
    && o.randomPassword != ""
    && o.sitesInProject == env.sitesInProject && env.sitesInProject.Some?
    && o.backups == env.backups && env.backups.Some?
    && o.namespace == env.namespace && (Blocked(env) || Unblocked(env))
    && o.configmaps == env.configmaps && env.configmaps.ConfigmapsFound?
  }

  /** The source of a clone exists and changes nothing in the spec. */
  ghost predicate FixedSpec(env: Oracle, spec: Spec) {
    (spec.cloneFrom != "" ==> env.clone.SourceFound?) && MergeClone(spec, env.clone) == spec && spec.releaseSpec != ""
  }

  /** A site that reconciles work on: not deleted, not paused, with a spec that says which release it wants. */
  ghost predicate Managed(env: Oracle, w: World) {
    !w.gone && !w.site.meta.deleting && !w.site.meta.paused && FixedSpec(env, w.site.spec)
  }

  /** The server answers and the database is there. */
  predicate Serving(w: World) {
    w.deploy.Some? && w.readyReplicas != 0 && w.dbod
  }

  /** A live site: managed, initialized, served, with a deployment nobody is debugging. */
  ghost predicate Alive(env: Oracle, w: World) {
    Managed(env, w) && w.site.Is(Initialized) && Serving(w) && w.deploy.value.created && !w.deploy.value.Debugging()
  }

  /** The site is initialized already, or neither its server nor a job says so. */
  predicate NothingNew(w: World, o: Oracle) {
    w.site.Is(Initialized) || !FoundInitialized(Begin(w), o)
  }

  lemma AliveIsManaged(env: Oracle, w: World, o: Oracle)
    requires Alive(env, w)
    ensures Managed(env, w) && NothingNew(w, o)
  {
    hide FixedSpec;
  }

  /** The configuration of the deployment in this environment. */
  function FixedConfig(env: Oracle, spec: Spec): Config {
    env.resources.(replicas := WantedReplicas(env, spec))
  }

  /** A blocked project runs nothing. */
  function WantedReplicas(env: Oracle, spec: Spec): nat {
    if Blocked(env) then 0 else if spec.qos == Critical then 3 else 1
  }

  function EnvHashes(env: Oracle): Hashes {
    match env.configmaps
    case ConfigmapsFound(h) => h
    case _ => Hashes("", "", "", "")
  }

  // ------------------------------------------------------------------ what is left to do

  /** The status agrees with what is observed. */
  ghost predicate Synced(env: Oracle, w: World) {
    && w.site.status.current == ReleaseId(w.site.spec)
    && w.site.status.conditions.ready == TruthOf(Serving(w))
    && (w.site.Is(Initialized) || w.site.status.conditions.initialized == Present(False, ""))
    && (w.site.status.failsafe == ReleaseId(w.site.spec) ==>
      !w.site.Is(CodeUpdateFailed) && !w.site.Is(DBUpdatesFailed))
    && (|w.site.spec.extraConfigurationRepo| > 0 ==> w.site.status.webhookURL == env.webhookURL)
    && (w.primary.Some? ==> w.site.status.isPrimary == (w.site.name == w.primary.value))
  }

  /** The project has its primary site, or no claim to it. */
  ghost predicate Claimed(env: Oracle, w: World) {
    !(w.primary == Some("") && env.sitesInProject.Some? && env.sitesInProject.value <= 1)
  }

  ghost predicate Listed(env: Oracle, w: World) {
    env.backups.Some? && |env.backups.value| == |w.site.status.backups|
  }

  ghost predicate Scaled(env: Oracle, w: World) {
    w.site.status.expectedReplicas == Some(WantedReplicas(env, w.site.spec))
  }

  ghost predicate Scheduled(w: World) {
    w.schedule == WantsSchedule(w.site)
  }

  ghost predicate Hashed(env: Oracle, w: World) {
    w.deploy.Some? && SetHashes(w.deploy.value, EnvHashes(env)) == w.deploy.value
  }

  /** Once hashed, the deployment is settled at the release of the spec. */
  ghost predicate Shaped(env: Oracle, w: World) {
    w.deploy.Some? && Settled(SetHashes(w.deploy.value, EnvHashes(env)), w.site, ReleaseId(w.site.spec),
      FixedConfig(env, w.site.spec))
  }

  // ------------------------------------------------------------------ the first stages

  /** A session after the claim to the primary site. */
  function ClaimedFrom(env: Oracle, s: Session): Session {
    if s.world.primary == Some("") && env.sitesInProject.Some? && env.sitesInProject.value <= 1 then
      Emit(s.(site := CheckPrimary(s.site, Some(s.site.name))), ConfigWritten(s.site.name))
    else s
  }

  function ClaimedSession(env: Oracle, w: World): Session {
    ClaimedFrom(env, Begin(w))
  }

  lemma CompleteSpecNothing(w: World, o: Oracle)
    requires MergeClone(w.site.spec, o.clone) == w.site.spec && !SpecIncomplete(w.site)
    ensures CompleteSpec(w.site, o) == w.site
  {
  }

  lemma InitSpecPath(env: Oracle, w: World, o: Oracle)
    requires FaultFree(o) && SameInputs(env, o) && Managed(env, w)
    ensures
      if SpecIncomplete(w.site) then
        InitSpec(Begin(w), o) == WriteSite(Begin(w).(site := CompleteSpec(w.site, o)), o)
      else InitSpec(Begin(w), o) == Go(Begin(w))
  {
    hide WriteSite, WriteStatus, CompleteSpec, MergeClone, SpecIncomplete;
    if !SpecIncomplete(w.site) {
      CompleteSpecNothing(w, o);
    }
  }

  lemma FoundReadyCalm(w: World, o: Oracle)
    requires FaultFree(o)
    ensures FoundReady(w, o) <==> Serving(w)
  {
  }

  /** Asking the pod whether the site is installed leaves nothing but a trace, and none if the site is known to be. */
  lemma AskingIsQuiet(w: World, o: Oracle)
    ensures AskInstalled(Begin(w), o) == Begin(w).(log := AskInstalled(Begin(w), o).log)
    ensures forall e :: e in AskInstalled(Begin(w), o).log ==> e.Executed?
    ensures w.site.Is(Initialized) || w.deploy.None? || w.readyReplicas == 0 ==> AskInstalled(Begin(w), o) == Begin(w)
  {
    hide ExecPod, ReleaseId;
  }

  /** The observed status of a managed site differs from the recorded one exactly when it is not synced. */
  lemma SyncedMeansNoChange(env: Oracle, w: World, o: Oracle)
    requires FaultFree(o) && SameInputs(env, o) && Managed(env, w) && NothingNew(w, o)
    ensures NewStatus(Begin(w), o) == w.site.status <==> Synced(env, w)
  {
    hide ReleaseId, FoundInitialized, FoundReady, ExecOutput, Serving;
    FoundReadyCalm(w, o);
  }

  lemma SyncStatusPath(env: Oracle, w: World, o: Oracle)
    requires FaultFree(o) && SameInputs(env, o) && Managed(env, w) && NothingNew(w, o)
    ensures
      var a := AskInstalled(Begin(w), o);
      if Synced(env, w) then SyncStatus(Begin(w), o) == Go(a)
      else SyncStatus(Begin(w), o) == WriteStatus(a.(site := w.site.(status := NewStatus(Begin(w), o))), o)
  {
    hide ReleaseId, NewStatus, WriteStatus, Synced, SameInputs, FaultFree, AskInstalled, NothingNew;
    SyncedMeansNoChange(env, w, o);
  }

  lemma ProclaimPath(env: Oracle, s: Session, o: Oracle)
    requires FaultFree(o) && SameInputs(env, o)
    ensures Proclaim(s, o) == Go(ClaimedFrom(env, s))
  {
    hide CheckPrimary;
  }

  lemma SyncBackupsPath(env: Oracle, s: Session, o: Oracle)
    requires SameInputs(env, o)
    ensures
      if |env.backups.value| == |s.site.status.backups| then SyncBackups(s, o) == Go(s)
      else
        SyncBackups(s, o) == WriteStatus(s.(site := s.site.(status := s.site.status.(backups := env.backups.value))), o)
  {
    hide WriteStatus;
  }

  /** Without faults, a managed site that is not found to be filled is completed, synchronized and listed in turn. */
  lemma ToAssessAsked(env: Oracle, w: World, o: Oracle)
    requires FaultFree(o) && SameInputs(env, o) && Managed(env, w) && NothingNew(w, o)
    ensures SpecIncomplete(w.site) ==>
      ToAssess(w, o) == WriteSite(Begin(w).(site := CompleteSpec(w.site, o)), o)
    ensures !SpecIncomplete(w.site) && !Synced(env, w) ==>
      var a := AskInstalled(Begin(w), o);
      ToAssess(w, o) == WriteStatus(a.(site := w.site.(status := NewStatus(Begin(w), o))), o)
    ensures !SpecIncomplete(w.site) && Synced(env, w) && !Listed(env, w) ==>
      var s := ClaimedFrom(env, AskInstalled(Begin(w), o));
      ToAssess(w, o) == WriteStatus(s.(site := s.site.(status := s.site.status.(backups := env.backups.value))), o)
    ensures !SpecIncomplete(w.site) && Synced(env, w) && Listed(env, w) ==>
      ToAssess(w, o) == Go(ClaimedFrom(env, AskInstalled(Begin(w), o)))
  {
    hide InitSpec, SyncStatus, Proclaim, SyncBackups, WriteStatus, WriteSite, CompleteSpec, NewStatus, ClaimedFrom,
      Synced, SpecIncomplete, AskInstalled, NothingNew;
    InitSpecPath(env, w, o);
    SyncStatusPath(env, w, o);
    AskingIsQuiet(w, o);
    var s := ClaimedFrom(env, AskInstalled(Begin(w), o));
    ProclaimPath(env, AskInstalled(Begin(w), o), o);
    SyncBackupsPath(env, s, o);
    assert s.site.status.backups == w.site.status.backups by { ClaimKeepsBackups(env, AskInstalled(Begin(w), o)); }
  }

  lemma ClaimKeepsBackups(env: Oracle, s: Session)
    ensures ClaimedFrom(env, s).site.status.backups == s.site.status.backups
  {
  }

  /** The same on a site known to be initialized, where the pod is not asked. */
  lemma ToAssessPath(env: Oracle, w: World, o: Oracle)
    requires FaultFree(o) && SameInputs(env, o) && Managed(env, w) && w.site.Is(Initialized)
    ensures SpecIncomplete(w.site) ==>
      ToAssess(w, o) == WriteSite(Begin(w).(site := CompleteSpec(w.site, o)), o)
    ensures !SpecIncomplete(w.site) && !Synced(env, w) ==>
      ToAssess(w, o) == WriteStatus(Begin(w).(site := w.site.(status := NewStatus(Begin(w), o))), o)
    ensures !SpecIncomplete(w.site) && Synced(env, w) && !Listed(env, w) ==>
      var s := ClaimedSession(env, w);
      ToAssess(w, o) == WriteStatus(s.(site := s.site.(status := s.site.status.(backups := env.backups.value))), o)
    ensures !SpecIncomplete(w.site) && Synced(env, w) && Listed(env, w) ==>
      ToAssess(w, o) == Go(ClaimedSession(env, w))
  {
    hide ToAssess, WriteStatus, WriteSite, CompleteSpec, NewStatus, ClaimedFrom, Synced, SpecIncomplete, Listed,
      AskInstalled;
    ToAssessAsked(env, w, o);
    AskingIsQuiet(w, o);
  }

  // ------------------------------------------------------------------ the needs

  /** The first pod of the release runs, whichever command or check looks for it. */
  ghost predicate PodsUp(o: Oracle, release: string) {
    && ExecPod(o.checkUpdb, release).Some? && ExecPod(o.cache1, release).Some?
    && ExecPod(o.backup, release).Some? && ExecPod(o.runUpdb, release).Some?
    && CheckRollout(o.rolloutPods, release) == RolledOut
  }

  /** The update check has something to say exactly when schema updates are pending. */
  ghost predicate Checks(o: Oracle, pending: bool) {
    o.checkUpdb.output.Some? && (o.checkUpdb.output != Some("") <==> pending)
  }

  /** All commands succeed. */
  ghost predicate Answers(o: Oracle, pending: bool) {
    Checks(o, pending) && o.cache1.output == Some("") && o.backup.output.Some? && o.runUpdb.output.Some?
  }

  ghost predicate Marked(w: World, needed: bool) {
    w.site.meta.updateInProgress == (if needed then IN_PROGRESS else None)
  }

  function PendingCondition(db: bool): Condition {
    if db then Present(True, "") else Absent
  }

  ghost predicate Announced(w: World, db: bool) {
    w.site.status.conditions.dbUpdatesPending == PendingCondition(db)
  }

  /** What the claim does does not depend on what was logged before. */
  lemma ClaimIgnoresLog(env: Oracle, w: World, log: seq<Event>)
    ensures
      var s := ClaimedFrom(env, Begin(w).(log := log));
      s == ClaimedSession(env, w).(log := s.log) && (Claimed(env, w) ==> s.log == log)
  {
  }

  /** The claim changes the project config and whether the site is primary, nothing else. */
  lemma ClaimedFacts(env: Oracle, w: World)
    ensures
      var s := ClaimedSession(env, w);
      && s.site == w.site.(status := w.site.status.(isPrimary := s.site.status.isPrimary))
      && s.world == w.(primary := s.world.primary)
      && !s.codeNeeded && !s.dbNeeded && !s.flagged
    ensures
      var s := ClaimedSession(env, w);
      if Claimed(env, w) then s == Begin(w)
      else s.site.status.isPrimary && s.world.primary == Some(w.site.name)
  {
  }

  ghost predicate Needs(s: Session, t: Session, code: bool, db: bool) {
    && t.codeNeeded == code && t.dbNeeded == db && t.site == s.site && t.world == s.world && t.flagged == s.flagged
    && (t.log == s.log || (|t.log| == |s.log| + 1 && s.log <= t.log && t.log[|s.log|].Executed?
      && t.log[|s.log|].command == CheckUpdb))
  }

  /** On a site that can be checked the needs are computed without an error. */
  lemma ComputeNeedsPath(s: Session, o: Oracle, pending: bool)
    requires FaultFree(o) && Updatable(s.site) && s.world.deploy.Some?
    requires !s.codeNeeded && !s.dbNeeded
    requires CodeBehind(s.world, s.site) || (PodsUp(o, Rel(s)) && Checks(o, pending))
    ensures
      var code := CodeBehind(s.world, s.site);
      Needs(s, ComputeNeeds(s, o), code, !code && pending)
  {
    hide ReleaseId, CodeBehind, ExecPod;
  }

  /** Without a failure, the annotation and then the pending condition are brought in step, one write at a time. */
  lemma AssessPath(s: Session, o: Oracle, pending: bool)
    requires FaultFree(o) && Updatable(s.site) && s.world.deploy.Some?
    requires !s.codeNeeded && !s.dbNeeded
    requires CodeBehind(s.world, s.site) || (PodsUp(o, Rel(s)) && Checks(o, pending))
    ensures
      var t := ComputeNeeds(s, o);
      var code := CodeBehind(s.world, s.site);
      var db := !code && pending;
      var mark := if code || db then IN_PROGRESS else None;
      && Needs(s, t, code, db)
      && (s.site.meta.updateInProgress != mark ==>
        Assess(s, o) == WriteSite(t.(site := WithUpdateInProgress(t.site, mark)), o))
      && (s.site.meta.updateInProgress == mark && s.site.status.conditions.dbUpdatesPending != PendingCondition(db) ==>
            Assess(s, o) == WriteStatus(t.(site := WithCondition(t.site, DBUpdatesPending, PendingCondition(db))), o))
      && (s.site.meta.updateInProgress == mark && s.site.status.conditions.dbUpdatesPending == PendingCondition(db) ==>
            Assess(s, o) == Go(t))
  {
    hide ReleaseId, CodeBehind, ComputeNeeds, WriteSite, WriteStatus, FaultFree, Checks, PodsUp;
    ComputeNeedsPath(s, o, pending);
  }

  /** After a failed update nothing is checked; the annotation goes and the pending condition becomes unknown. */
  lemma AssessFailedPath(s: Session, o: Oracle)
    requires s.site.Is(CodeUpdateFailed)
    ensures s.site.meta.updateInProgress.Some? ==>
      Assess(s, o) == WriteSite(s.(site := WithUpdateInProgress(s.site, None)), o)
    ensures s.site.meta.updateInProgress.None? && s.site.status.conditions.dbUpdatesPending != Present(Unknown, "") ==>
      Assess(s, o) == WriteStatus(s.(site := WithCondition(s.site, DBUpdatesPending, Present(Unknown, ""))), o)
    ensures s.site.meta.updateInProgress.None? && s.site.status.conditions.dbUpdatesPending == Present(Unknown, "") ==>
      Assess(s, o) == Go(s)
  {
    hide WriteSite, WriteStatus;
  }

  // ------------------------------------------------------------------ the resources

  lemma ConfigPath(env: Oracle, s: Session, o: Oracle)
    requires SameInputs(env, o)
    ensures Replicas(s, o) == Some(WantedReplicas(env, s.site.spec)) && ConfigOf(s, o) == FixedConfig(env, s.site.spec)
  {
  }

  lemma SyncReplicasPath(env: Oracle, s: Session, o: Oracle)
    requires FaultFree(o) && SameInputs(env, o)
    ensures
      var n := Some(WantedReplicas(env, s.site.spec));
      if s.site.status.expectedReplicas == n then SyncReplicas(s, o) == Go(s)
      else SyncReplicas(s, o) == WriteStatus(s.(site := s.site.(status := s.site.status.(expectedReplicas := n))), o)
  {
    hide WriteStatus, Replicas;
    ConfigPath(env, s, o);
  }

  /** The deployment after the ordinary update and the hash writer. */
  function Equip(env: Oracle, s: Session, d: Deployment, standsBack: bool): Deployment {
    SetHashes(if standsBack then d else Apply(d, s.site, Rel(s), FixedConfig(env, s.site.spec)), EnvHashes(env))
  }

  predicate SiteStandsBack(site: Site) {
    site.meta.updateInProgress == IN_PROGRESS || site.Is(CodeUpdateFailed) || site.Is(DBUpdatesFailed)
  }

  /** `t` is `s` after its resources were ensured, leaving deployment `d`. */
  ghost predicate EquippedTo(s: Session, t: Session, d: Deployment) {
    && t.site == s.site && t.codeNeeded == s.codeNeeded && t.dbNeeded == s.dbNeeded && t.flagged == s.flagged
    && t.world == s.world.(deploy := Some(d), schedule := WantsSchedule(s.site))
    && (s.world.deploy == Some(d) && s.world.schedule == WantsSchedule(s.site) ==> t.log == s.log)
  }

  lemma UpsertSucceeds(current: Option<Deployment>, wanted: Deployment)
    requires current.Some?
    ensures
      var r := UpsertDeployment(current, wanted, SUCCEEDS);
      !r.Refused? && Result(current, r) == Some(wanted) && (current == Some(wanted) ==> r == Unchanged)
      && (current != Some(wanted) ==> r == Updated(wanted))
  {
  }

  /** The ordinary update, recorded. */
  lemma RecordPath(env: Oracle, s: Session, o: Oracle)
    requires FaultFree(o) && SameInputs(env, o)
    requires s.world.dbod && s.world.deploy.Some?
    ensures
      var d := s.world.deploy.value;
      var e := if SiteStandsBack(s.site) then d else Apply(d, s.site, Rel(s), FixedConfig(env, s.site.spec));
      var r := EnsureUpsert(s, o);
      var t := Record(s, ByResources, r);
      !r.Refused? && t == s.(world := s.world.(deploy := Some(e)), log := t.log) && (e == d ==> t.log == s.log)
  {
    hide ReleaseId, Apply, ConfigOf, FixedConfig, SameInputs;
    ConfigPath(env, s, o);
    UpsertSucceeds(s.world.deploy, Apply(s.world.deploy.value, s.site, Rel(s), ConfigOf(s, o)));
  }

  lemma SchedulePath(s: Session, o: Oracle)
    requires FaultFree(o)
    ensures
      var t := EnsureSchedule(s, o);
      && !ScheduleFails(s, o) && t == s.(world := s.world.(schedule := WantsSchedule(s.site)), log := t.log)
      && (s.world.schedule == WantsSchedule(s.site) ==> t.log == s.log)
  {
    hide WantsSchedule;
  }

  lemma EnsureResourcesPath(env: Oracle, s: Session, o: Oracle)
    requires FaultFree(o) && SameInputs(env, o)
    requires s.world.dbod && s.world.deploy.Some? && s.site.Is(Initialized)
    ensures
      var d := s.world.deploy.value;
      var e := if SiteStandsBack(s.site) then d else Apply(d, s.site, Rel(s), FixedConfig(env, s.site.spec));
      EnsureResources(s, o).Go? && EquippedTo(s, EnsureResources(s, o).session, e)
  {
    hide ReleaseId, Apply, WantsSchedule, TransientNotReady, FixedConfig, SameInputs, EnsureUpsert, Record,
      EnsureSchedule, ScheduleFails, SiteStandsBack;
    RecordPath(env, s, o);
    SchedulePath(Record(s, ByResources, EnsureUpsert(s, o)), o);
  }

  lemma EnsureHashesPath(env: Oracle, s: Session, o: Oracle)
    requires FaultFree(o) && SameInputs(env, o) && s.world.deploy.Some?
    ensures
      var d := SetHashes(s.world.deploy.value, EnvHashes(env));
      && EnsureHashes(s, o).Go?
      && EnsureHashes(s, o).session == s.(world := s.world.(deploy := Some(d)), log := EnsureHashes(s, o).session.log)
      && (s.world.deploy == Some(d) ==> EnsureHashes(s, o).session.log == s.log)
  {
    hide SetHashes, TransientNotReady;
    UpsertSucceeds(s.world.deploy, SetHashes(s.world.deploy.value, EnvHashes(env)));
  }

  /** Ensuring never stops a fault-free reconcile, except to record the expected replicas. */
  lemma EnsurePath(env: Oracle, s: Session, o: Oracle)
    requires FaultFree(o) && SameInputs(env, o)
    requires s.world.dbod && s.world.deploy.Some? && s.site.Is(Initialized)
    ensures
      var n := Some(WantedReplicas(env, s.site.spec));
      s.site.status.expectedReplicas != n ==>
        Ensure(s, o) == WriteStatus(s.(site := s.site.(status := s.site.status.(expectedReplicas := n))), o)
    ensures s.site.status.expectedReplicas == Some(WantedReplicas(env, s.site.spec)) ==>
      Ensure(s, o).Go? && EquippedUpTo(env, s, Ensure(s, o).session)
  {
    hide WriteStatus, EnsureResources, EnsureHashes, WantsSchedule, Apply, SetHashes, SyncReplicas, FixedConfig,
      SiteStandsBack, ReleaseId, SameInputs;
    SyncReplicasPath(env, s, o);
    EnsureResourcesPath(env, s, o);
    var t := EnsureResources(s, o).session;
    EnsureHashesPath(env, t, o);
  }

  /** As `EquippedTo`, for both writers; an object that neither changes leaves no trace. */
  ghost predicate EquippedUpTo(env: Oracle, s: Session, t: Session)
    requires s.world.deploy.Some?
  {
    var d := s.world.deploy.value;
    var e := Equip(env, s, d, SiteStandsBack(s.site));
    && t.site == s.site && t.codeNeeded == s.codeNeeded && t.dbNeeded == s.dbNeeded && t.flagged == s.flagged
    && t.world == s.world.(deploy := Some(e), schedule := WantsSchedule(s.site))
    && (Untouched(env, s, d) ==> t.log == s.log)
  }

  /** Neither writer has anything to do on deployment `d`, and the schedule is as it should be. */
  ghost predicate Untouched(env: Oracle, s: Session, d: Deployment) {
    && SetHashes(d, EnvHashes(env)) == d
    && s.world.schedule == WantsSchedule(s.site)
    && (SiteStandsBack(s.site) || Apply(d, s.site, Rel(s), FixedConfig(env, s.site.spec)) == d)
  }
}
